/** The per-match pipeline: skip handled matches, gate the fetched record,
    defer it or score it, and book the result in the store. */
module Processor {
  import opened MatchData
  import opened Validation
  import opened Triggers
  import opened Store
  import opened Challenges

  /** The retry count stored for a deferred match (0 when it has none). */
  function RetriesOf(u: map<int, Unparsed>, id: int): nat
  {
    if id in u then u[id].retries else 0
  }

  /** The log already kept for a match (empty when it has none). */
  function LogOf(log: map<int, seq<LogEntry>>, id: int): seq<LogEntry>
  {
    if id in log then log[id] else []
  }

  /** The triggers, each stamped with the match time, as written to the log. */
  function Stamp(ts: seq<Trigger>, time: int): (es: seq<LogEntry>)
    ensures |es| == |ts|
    ensures forall i :: 0 <= i < |ts| ==> es[i] == LogEntry(ts[i], time)
  {
    if ts == [] then [] else Stamp(ts[..|ts| - 1], time) + [LogEntry(ts[|ts| - 1], time)]
  }

  /** The name-and-points pairs of a player's triggers, in order; they add up
      to the triggers' total. */
  function Entries(ts: seq<Trigger>): (cs: seq<ChallengeEntry>)
    ensures |cs| == |ts|
    ensures EntriesSum(cs) == Total(ts)
  {
    if ts == [] then [] else
      var cs := Entries(ts[..|ts| - 1]) + [ChallengeEntry(ts[|ts| - 1].challenge, ts[|ts| - 1].points)];
      assert cs[..|cs| - 1] == Entries(ts[..|ts| - 1]);
      cs
  }

  /** The display names of the tracked players of the match, in order. */
  function FriendNames(fs: seq<Player>, roster: map<int, string>): (names: seq<string>)
    ensures |names| == |fs|
    ensures forall i :: 0 <= i < |fs| ==> names[i] == DisplayName(roster, AccountOf(fs[i]))
  {
    if fs == [] then [] else FriendNames(fs[..|fs| - 1], roster) + [DisplayName(roster, AccountOf(fs[|fs| - 1]))]
  }

  /** The summary a player's match starts from: no challenges and a zero subtotal. */
  function FreshRecord(m: Match, p: Player, time: int, names: seq<string>, cfg: Config): (r: MatchRecord)
    ensures RecordOk(r) && r.challenges == []
  {
    MatchRecord(time, HeroName(cfg.heroes, p.heroId), Kda(OrZero(p.kills), OrZero(p.deaths), OrZero(p.assists)),
                Won(p), 0, names, [])
  }

  /** Add a player's share of a match's triggers to the summary of that match
      (creating it when absent) and to the running total. */
  function Credit(prof: Profile, id: int, start: MatchRecord, share: seq<Trigger>): Profile
  {
    var rec := if id in prof.matches then prof.matches[id] else start;
    var rec' := rec.(challenges := rec.challenges + Entries(share), totalInMatch := rec.totalInMatch + Total(share));
    Profile(prof.name, prof.totalPoints + Total(share),
            if id in prof.matches then prof.order else prof.order + [id],
            prof.matches[id := rec'])
  }

  /** Crediting keeps point conservation: the running total stays the sum of
      the subtotals, and each subtotal the sum of its challenges. */
  lemma CreditKeepsProfileOk(prof: Profile, id: int, start: MatchRecord, share: seq<Trigger>)
    requires ProfileOk(prof) && RecordOk(start) && start.totalInMatch == 0
    ensures ProfileOk(Credit(prof, id, start, share))
  {
    var rec := if id in prof.matches then prof.matches[id] else start;
    var rec' := rec.(challenges := rec.challenges + Entries(share), totalInMatch := rec.totalInMatch + Total(share));
    EntriesSumAppend(rec.challenges, Entries(share));
    var q := Credit(prof, id, start, share);
    assert q.matches == prof.matches[id := rec'];
    RecordsKept(prof.matches, id, rec');
    if id in prof.matches {
      assert q.order == prof.order;
      SumAlongReplace(prof.order, prof.matches, id, rec');
      assert q.totalPoints == SumAlong(q.order, q.matches);
    } else {
      assert q.order == prof.order + [id];
      AppendKeepsKeys(prof, id, rec');
      SumAlongAppend(prof.order, prof.matches, id, rec');
      assert q.totalPoints == SumAlong(q.order, q.matches);
    }
  }

  /** Every summary of the map is consistent. */
  ghost predicate RecordsOk(ms: map<int, MatchRecord>)
  {
    forall k :: k in ms ==> RecordOk(ms[k])
  }

  lemma RecordsKept(ms: map<int, MatchRecord>, id: int, r: MatchRecord)
    requires RecordsOk(ms) && RecordOk(r)
    ensures RecordsOk(ms[id := r])
  {
  }

  /** Adding a fresh key at the end keeps the key order without repeats and in
      step with the summaries. */
  lemma AppendKeepsKeys(prof: Profile, id: int, r: MatchRecord)
    requires Distinct(prof.order) && (forall k :: k in prof.matches <==> k in prof.order)
    requires id !in prof.matches
    ensures id !in prof.order
    ensures Distinct(prof.order + [id])
    ensures forall k :: k in prof.matches[id := r] <==> k in prof.order + [id]
  {
    var o := prof.order + [id];
    forall i, j | 0 <= i < j < |o| ensures o[i] != o[j] {
      if j == |prof.order| {
        assert o[i] == prof.order[i];
        assert prof.order[i] in prof.order;
      }
    }
  }

  /** The profile a first-time player starts from: the roster name, no points, no matches. */
  function NewProfile(cfg: Config, sid: int): (q: Profile)
    ensures ProfileOk(q) && q.totalPoints == 0 && q.matches == map[]
  {
    Profile(DisplayName(cfg.roster, sid), 0, [], map[])
  }

  /** Book one tracked player's share of the triggers under match id. The
      leaderboard entry keeps its streak keys; an entry without the per-match
      keys (as the rule engine creates it) gets the first-time defaults. */
  function CreditPlayer(m: Match, lb: map<int, Entry>, p: Player, ts: seq<Trigger>, id: int, time: int,
                        names: seq<string>, cfg: Config): map<int, Entry>
  {
    var sid := AccountOf(p);
    var prof := if ProfileOf(lb, sid).Some? then ProfileOf(lb, sid).value else NewProfile(cfg, sid);
    lb[sid := Entry(StreakOf(lb, sid), Some(Credit(prof, id, FreshRecord(m, p, time, names, cfg), Share(ts, sid))))]
  }

  /** The booking loop over the tracked players, in order. */
  function CreditFriends(m: Match, lb: map<int, Entry>, fs: seq<Player>, ts: seq<Trigger>, id: int, time: int,
                         names: seq<string>, cfg: Config): map<int, Entry>
  {
    if fs == [] then lb
    else
      CreditPlayer(m, CreditFriends(m, lb, fs[..|fs| - 1], ts, id, time, names, cfg), fs[|fs| - 1], ts, id, time, names, cfg)
  }

  /** The store after a match passes the gate: the rule engine runs, its
      triggers are logged, the match is marked checked and leaves the retry
      queue, and every tracked player's share is booked. */
  function Scored(l: Ledger, id: int, m: Match, cfg: Config): Ledger
  {
    var (ts, lb1) := Score(m, l.leaderboard, cfg);
    var time := MatchTime(m);
    var fs := Friends(m.players, cfg.roster.Keys);
    Ledger(l.checked[id := Checked(time, OrZero(m.duration), AccountIds(m.players))],
           l.unparsed - {id},
           CreditFriends(m, lb1, fs, ts, id, time, FriendNames(fs, cfg.roster), cfg),
           l.challengeLog[id := LogOf(l.challengeLog, id) + Stamp(ts, time)])
  }

  /** `process_match` as a value: the new store and whether the match counts
      as handled. `fetched` is what the match source returned for the id;
      `now` is the wall-clock time of the call. */
  function Process(l: Ledger, id: int, processed: set<int>, fetched: Option<Match>, expected: Option<int>,
                   cfg: Config, now: int): (Ledger, bool)
  {
    if id in l.checked || id in processed then (l, true)
    else match fetched
      case None => (l, false)
      case Some(m) =>
        if IsMatchFullyParsed(m, cfg.roster, expected).Deferred? then
          (l.(unparsed := l.unparsed[id := Unparsed(now, expected, RetriesOf(l.unparsed, id) + 1)]), false)
        else
          (Scored(l, id, m, cfg), true)
  }

  /** A match already checked, or already handled in this run, is reported
      handled and leaves the store as it is, whatever the source returns. */
  lemma SkipHandled(l: Ledger, id: int, processed: set<int>, fetched: Option<Match>, expected: Option<int>,
                    cfg: Config, now: int)
    requires id in l.checked || id in processed
    ensures Process(l, id, processed, fetched, expected, cfg, now) == (l, true)
  {
  }

  /** Processing is idempotent: once a call reports a match handled, a second
      call for it changes nothing and reports it handled again. */
  lemma ProcessIdempotent(l: Ledger, id: int, processed: set<int>, fetched: Option<Match>, expected: Option<int>,
                          cfg: Config, now: int,
                          processed': set<int>, fetched': Option<Match>, expected': Option<int>, now': int)
    requires Process(l, id, processed, fetched, expected, cfg, now).1
    requires id in processed ==> id in processed'
    ensures var l' := Process(l, id, processed, fetched, expected, cfg, now).0;
            Process(l', id, processed', fetched', expected', cfg, now') == (l', true)
  {
  }

  /** A fetch that yields nothing changes nothing and reports failure. */
  lemma FetchFailure(l: Ledger, id: int, processed: set<int>, expected: Option<int>, cfg: Config, now: int)
    requires id !in l.checked && id !in processed
    ensures Process(l, id, processed, None, expected, cfg, now) == (l, false)
  {
  }

  /** A record that fails the gate is queued for a retry with the count one
      higher than before (1 when it was not queued) and the expected-friend
      hint of this call; nothing else in the store changes and the call fails. */
  lemma Deferral(l: Ledger, id: int, processed: set<int>, m: Match, expected: Option<int>, cfg: Config, now: int)
    requires id !in l.checked && id !in processed
    requires !ReadyForScoring(m, cfg.roster, expected)
    ensures var (l', ok) := Process(l, id, processed, Some(m), expected, cfg, now);
            && !ok
            && id in l'.unparsed
            && l'.unparsed[id].retries == RetriesOf(l.unparsed, id) + 1
            && l'.unparsed[id].expectedFriend == expected
            && (forall k :: k != id ==> (k in l'.unparsed <==> k in l.unparsed))
            && (forall k :: k != id && k in l.unparsed ==> l'.unparsed[k] == l.unparsed[k])
            && l'.checked == l.checked && l'.leaderboard == l.leaderboard && l'.challengeLog == l.challengeLog
  {
  }

  /** A record that passes the gate is marked checked with the account ids of
      all its players, leaves the retry queue, has its triggers appended in
      order to its log, and the call succeeds; no other checked or queued
      match is touched. */
  lemma SuccessBookkeeping(l: Ledger, id: int, processed: set<int>, m: Match, expected: Option<int>, cfg: Config, now: int)
    requires id !in l.checked && id !in processed
    requires ReadyForScoring(m, cfg.roster, expected)
    ensures var (l', ok) := Process(l, id, processed, Some(m), expected, cfg, now);
            var ts := Score(m, l.leaderboard, cfg).0;
            && ok
            && id in l'.checked && id !in l'.unparsed
            && l'.checked[id].friends == AccountIds(m.players)
            && l'.checked[id].checkedAt == MatchTime(m)
            && l'.checked.Keys == l.checked.Keys + {id}
            && (forall k :: k in l.checked ==> l'.checked[k] == l.checked[k])
            && l'.unparsed == l.unparsed - {id}
            && id in l'.challengeLog
            && l'.challengeLog[id] == LogOf(l.challengeLog, id) + Stamp(ts, MatchTime(m))
  {
  }

  /** A call only touches the retry-queue entry of its own match id. */
  lemma ProcessUnparsedFrame(l: Ledger, id: int, processed: set<int>, fetched: Option<Match>, expected: Option<int>,
                             cfg: Config, now: int, k: int)
    requires k != id
    ensures var l' := Process(l, id, processed, fetched, expected, cfg, now).0;
            (k in l'.unparsed <==> k in l.unparsed) && (k in l.unparsed ==> l'.unparsed[k] == l.unparsed[k])
  {
  }

  /** Checked matches are never forgotten, and a call reports success only for
      a match that is checked afterwards or was already handled in this run. */
  lemma ProcessMonotone(l: Ledger, id: int, processed: set<int>, fetched: Option<Match>, expected: Option<int>,
                        cfg: Config, now: int)
    ensures var (l', ok) := Process(l, id, processed, fetched, expected, cfg, now);
            && l.checked.Keys <= l'.checked.Keys
            && (ok ==> id in l'.checked || id in processed)
            && (!ok ==> id !in l'.checked && id !in processed)
  {
  }

  /** Booking a player leaves every other player's entry as it was. */
  lemma {:induction false} CreditFriendsOther(m: Match, lb: map<int, Entry>, fs: seq<Player>, ts: seq<Trigger>, id: int,
                                              time: int, names: seq<string>, cfg: Config, sid: int)
    requires forall j :: 0 <= j < |fs| ==> AccountOf(fs[j]) != sid
    ensures var lb' := CreditFriends(m, lb, fs, ts, id, time, names, cfg);
            (sid in lb' <==> sid in lb) && (sid in lb ==> lb'[sid] == lb[sid])
    decreases |fs|
  {
    if fs != [] {
      CreditFriendsOther(m, lb, fs[..|fs| - 1], ts, id, time, names, cfg, sid);
    }
  }

  /** A player listed once is booked exactly once, from the entry it had before. */
  lemma {:induction false} CreditFriendsOnce(m: Match, lb: map<int, Entry>, fs: seq<Player>, ts: seq<Trigger>, id: int,
                                             time: int, names: seq<string>, cfg: Config, i: int)
    requires 0 <= i < |fs|
    requires forall j :: 0 <= j < |fs| && j != i ==> AccountOf(fs[j]) != AccountOf(fs[i])
    ensures var sid := AccountOf(fs[i]);
            sid in CreditFriends(m, lb, fs, ts, id, time, names, cfg) &&
            CreditFriends(m, lb, fs, ts, id, time, names, cfg)[sid] == CreditPlayer(m, lb, fs[i], ts, id, time, names, cfg)[sid]
    decreases |fs|
  {
    var init := fs[..|fs| - 1];
    var sid := AccountOf(fs[i]);
    if i == |fs| - 1 {
      CreditFriendsOther(m, lb, init, ts, id, time, names, cfg, sid);
      var lb2 := CreditFriends(m, lb, init, ts, id, time, names, cfg);
      assert StreakOf(lb2, sid) == StreakOf(lb, sid) && ProfileOf(lb2, sid) == ProfileOf(lb, sid);
    } else {
      assert init[i] == fs[i];
      CreditFriendsOnce(m, lb, init, ts, id, time, names, cfg, i);
    }
  }

  /** Booking keeps the leaderboard invariant. */
  lemma {:induction false} CreditFriendsOk(m: Match, lb: map<int, Entry>, fs: seq<Player>, ts: seq<Trigger>, id: int,
                                           time: int, names: seq<string>, cfg: Config)
    requires LeaderboardOk(lb)
    ensures LeaderboardOk(CreditFriends(m, lb, fs, ts, id, time, names, cfg))
    decreases |fs|
  {
    if fs != [] {
      var lb2 := CreditFriends(m, lb, fs[..|fs| - 1], ts, id, time, names, cfg);
      CreditFriendsOk(m, lb, fs[..|fs| - 1], ts, id, time, names, cfg);
      var p := fs[|fs| - 1];
      var sid := AccountOf(p);
      var prof := if ProfileOf(lb2, sid).Some? then ProfileOf(lb2, sid).value else NewProfile(cfg, sid);
      assert ProfileOk(prof) by {
        if ProfileOf(lb2, sid).Some? { assert EntryOk(lb2[sid]); }
      }
      assert StreakOk(StreakOf(lb2, sid)) by {
        if sid in lb2 { assert EntryOk(lb2[sid]); }
      }
      CreditKeepsProfileOk(prof, id, FreshRecord(m, p, time, names, cfg), Share(ts, sid));
    }
  }

  /** Processing keeps the store invariant: streaks stay exclusive and every
      running total stays the sum of its per-match subtotals. */
  lemma ProcessKeepsInvariant(l: Ledger, id: int, processed: set<int>, fetched: Option<Match>, expected: Option<int>,
                              cfg: Config, now: int)
    requires LedgerOk(l)
    ensures LedgerOk(Process(l, id, processed, fetched, expected, cfg, now).0)
  {
    if id !in l.checked && id !in processed && fetched.Some? {
      var m := fetched.value;
      var (ts, lb1) := Score(m, l.leaderboard, cfg);
      ScorePreservesInvariant(m, l.leaderboard, cfg);
      var fs := Friends(m.players, cfg.roster.Keys);
      CreditFriendsOk(m, lb1, fs, ts, id, MatchTime(m), FriendNames(fs, cfg.roster), cfg);
    }
  }

  /** What a tracked player listed once in a scored match ends up with: the
      streak successor, a summary of this match holding that player's
      triggers in order after any it already held, and the running total and
      subtotal raised by those triggers' points; other summaries are kept. */
  lemma FriendBooked(l: Ledger, id: int, m: Match, cfg: Config, i: int)
    requires var fs := Friends(m.players, cfg.roster.Keys);
             0 <= i < |fs| && forall j :: 0 <= j < |fs| && j != i ==> AccountOf(fs[j]) != AccountOf(fs[i])
    ensures var fs := Friends(m.players, cfg.roster.Keys);
            var p := fs[i];
            var sid := AccountOf(p);
            var lb' := Scored(l, id, m, cfg).leaderboard;
            var before := if ProfileOf(l.leaderboard, sid).Some? then ProfileOf(l.leaderboard, sid).value else NewProfile(cfg, sid);
            var ns := NextStreak(StreakOf(l.leaderboard, sid), Won(p));
            && sid in lb' && lb'[sid].streak == ns && lb'[sid].profile.Some?
            && CreditedBy(lb'[sid].profile.value, before, id, PlayerTriggers(m, p, ns, cfg))
  {
    var fs := Friends(m.players, cfg.roster.Keys);
    var p := fs[i];
    var sid := AccountOf(p);
    var (ts, lb1) := Score(m, l.leaderboard, cfg);
    var names := FriendNames(fs, cfg.roster);
    var before := if ProfileOf(l.leaderboard, sid).Some? then ProfileOf(l.leaderboard, sid).value else NewProfile(cfg, sid);
    var ns := NextStreak(StreakOf(l.leaderboard, sid), Won(p));
    var mine := PlayerTriggers(m, p, ns, cfg);
    ShareOfFriend(m, fs, l.leaderboard, cfg, i);
    ScoreFriendsFrame(m, fs, l.leaderboard, cfg);
    assert p in fs;
    assert sid in IdSet(fs);
    assert ProfileOf(lb1, sid) == ProfileOf(l.leaderboard, sid);
    CreditFriendsOnce(m, lb1, fs, ts, id, MatchTime(m), names, cfg, i);
    var start := FreshRecord(m, p, MatchTime(m), names, cfg);
    assert Scored(l, id, m, cfg).leaderboard[sid] == Entry(ns, Some(Credit(before, id, start, mine)));
    CreditEffect(before, id, start, mine);
  }

  /** Profile q is prof credited with share under match id: the running
      total and the subtotal of that match are raised by the share's points,
      the match's challenges are followed by the share's, and the other
      summaries are kept. */
  ghost predicate CreditedBy(q: Profile, prof: Profile, id: int, share: seq<Trigger>)
  {
    var prior := if id in prof.matches then prof.matches[id].challenges else [];
    var priorSub := if id in prof.matches then prof.matches[id].totalInMatch else 0;
    && q.totalPoints == prof.totalPoints + Total(share)
    && id in q.matches
    && q.matches[id].challenges == prior + Entries(share)
    && q.matches[id].totalInMatch == priorSub + Total(share)
    && (forall k :: k != id ==> (k in q.matches <==> k in prof.matches))
    && (forall k :: k != id && k in prof.matches ==> q.matches[k] == prof.matches[k])
  }

  /** What crediting does to a profile, starting a new summary from an empty one. */
  lemma CreditEffect(prof: Profile, id: int, start: MatchRecord, share: seq<Trigger>)
    requires start.challenges == [] && start.totalInMatch == 0
    ensures CreditedBy(Credit(prof, id, start, share), prof, id, share)
  {
  }

  /** The booking step as the source writes it: the leaderboard entry of a
      player is looked up with its defaults only when it is absent, and an
      entry without the per-match keys makes the lookup of those keys fail
      (`None` stands for the error raised). */
  function CreditPlayerAsWritten(m: Match, lb: map<int, Entry>, p: Player, ts: seq<Trigger>, id: int, time: int,
                                 names: seq<string>, cfg: Config): (r: Option<map<int, Entry>>)
    ensures r.Some? ==> r.value == CreditPlayer(m, lb, p, ts, id, time, names, cfg)
  {
    var sid := AccountOf(p);
    if sid in lb && lb[sid].profile.None? then None
    else Some(CreditPlayer(m, lb, p, ts, id, time, names, cfg))
  }

  /** The rule engine creates the entry of a first-time player without the
      per-match keys, so booking that player as the source writes it fails:
      every scored match with a tracked player who has no leaderboard entry
      yet raises instead of being booked. */
  lemma FirstTimePlayerFails(l: Ledger, id: int, m: Match, cfg: Config, i: int)
    requires var fs := Friends(m.players, cfg.roster.Keys);
             0 <= i < |fs| && AccountOf(fs[i]) !in l.leaderboard
    ensures var fs := Friends(m.players, cfg.roster.Keys);
            var lb1 := Score(m, l.leaderboard, cfg).1;
            CreditPlayerAsWritten(m, lb1, fs[i], Score(m, l.leaderboard, cfg).0, id, MatchTime(m),
                                  FriendNames(fs, cfg.roster), cfg) == None
  {
    var fs := Friends(m.players, cfg.roster.Keys);
    ScoreFriendsFrame(m, fs, l.leaderboard, cfg);
    assert fs[i] in fs;
    assert AccountOf(fs[i]) in IdSet(fs);
  }

  /** `process_match`, changing the store in place step by step. */
  method ProcessMatch(id: int, store: Store, processed: set<int>, expected: Option<int>, fetched: Option<Match>,
                      cfg: Config, now: int) returns (done: bool)
    modifies store
    ensures (store.State(), done) == Process(old(store.State()), id, processed, fetched, expected, cfg, now)
  {
    if id in store.checked {
      return true;
    }
    if id in processed {
      return true;
    }
    if fetched.None? {
      return false;
    }
    var m := fetched.value;
    var verdict := IsMatchFullyParsed(m, cfg.roster, expected);
    if verdict.Deferred? {
      store.unparsed := store.unparsed[id := Unparsed(now, expected, RetriesOf(store.unparsed, id) + 1)];
      return false;
    }
    BookMatch(store, id, m, cfg);
    return true;
  }

  /** Steps 4 to 6 of `process_match` for a record that passed the gate. */
  method BookMatch(store: Store, id: int, m: Match, cfg: Config)
    modifies store
    ensures store.State() == Scored(old(store.State()), id, m, cfg)
  {
    ghost var l0 := store.State();
    var triggers, matchTime := CheckChallenges(m, store, cfg);
    ghost var lb1 := store.leaderboard;
    LogTriggers(store, id, triggers, matchTime);
    store.checked := store.checked[id := Checked(matchTime, OrZero(m.duration), AccountIds(m.players))];
    if id in store.unparsed {
      store.unparsed := store.unparsed - {id};
    } else {
      assert store.unparsed - {id} == store.unparsed;
    }
    var friends := Friends(m.players, cfg.roster.Keys);
    var names := FriendNames(friends, cfg.roster);
    CreditAll(store, m, friends, triggers, id, matchTime, names, cfg);
  }

  /** Credit every tracked player of the match, in player order. */
  method CreditAll(store: Store, m: Match, friends: seq<Player>, triggers: seq<Trigger>, id: int, matchTime: int,
                   names: seq<string>, cfg: Config)
    modifies store
    ensures store.leaderboard == CreditFriends(m, old(store.leaderboard), friends, triggers, id, matchTime, names, cfg)
    ensures store.checked == old(store.checked) && store.unparsed == old(store.unparsed)
    ensures store.challengeLog == old(store.challengeLog)
  {
    var i := 0;
    while i < |friends|
      invariant 0 <= i <= |friends|
      invariant store.leaderboard == CreditFriends(m, old(store.leaderboard), friends[..i], triggers, id, matchTime, names, cfg)
      invariant store.checked == old(store.checked) && store.unparsed == old(store.unparsed)
      invariant store.challengeLog == old(store.challengeLog)
    {
      assert friends[..i + 1][..i] == friends[..i];
      CreditOne(store, m, friends[i], triggers, id, matchTime, names, cfg);
      i := i + 1;
    }
    assert friends[..|friends|] == friends;
  }

  /** One trigger of the log loop: its stamped entry is appended to the list
      of the match. */
  method LogOne(store: Store, id: int, triggers: seq<Trigger>, k: nat, matchTime: int,
                ghost log0: map<int, seq<LogEntry>>, ghost base: seq<LogEntry>)
    requires k < |triggers|
    requires store.challengeLog == log0[id := base + Stamp(triggers[..k], matchTime)]
    modifies store
    ensures store.challengeLog == log0[id := base + Stamp(triggers[..k + 1], matchTime)]
    ensures store.checked == old(store.checked) && store.unparsed == old(store.unparsed)
    ensures store.leaderboard == old(store.leaderboard)
  {
    ghost var done := Stamp(triggers[..k], matchTime);
    var e := LogEntry(triggers[k], matchTime);
    assert triggers[..k + 1][..k] == triggers[..k];
    assert Stamp(triggers[..k + 1], matchTime) == done + [e];
    assert base + done + [e] == base + (done + [e]);
    store.challengeLog := store.challengeLog[id := store.challengeLog[id] + [e]];
  }

  /** Append every trigger, in order, to the match's log, stamped with the match time. */
  method LogTriggers(store: Store, id: int, triggers: seq<Trigger>, matchTime: int)
    modifies store
    ensures store.challengeLog == old(store.challengeLog)[id := LogOf(old(store.challengeLog), id) + Stamp(triggers, matchTime)]
    ensures store.checked == old(store.checked) && store.unparsed == old(store.unparsed)
    ensures store.leaderboard == old(store.leaderboard)
  {
    ghost var log0 := store.challengeLog;
    ghost var base := LogOf(log0, id);
    if id !in store.challengeLog {
      store.challengeLog := store.challengeLog[id := []];
    } else {
      assert store.challengeLog == log0[id := base];
    }
    assert triggers[..0] == [] && base + [] == base;
    var k := 0;
    while k < |triggers|
      invariant 0 <= k <= |triggers|
      invariant store.challengeLog == log0[id := base + Stamp(triggers[..k], matchTime)]
      invariant store.checked == old(store.checked) && store.unparsed == old(store.unparsed)
      invariant store.leaderboard == old(store.leaderboard)
    {
      LogOne(store, id, triggers, k, matchTime, log0, base);
      k := k + 1;
    }
    assert triggers[..|triggers|] == triggers;
  }

  /** Book one tracked player: find or create the leaderboard entry and the
      match summary, then add the player's triggers one by one. */
  method CreditOne(store: Store, m: Match, p: Player, triggers: seq<Trigger>, id: int, matchTime: int,
                   names: seq<string>, cfg: Config)
    modifies store
    ensures store.leaderboard == CreditPlayer(m, old(store.leaderboard), p, triggers, id, matchTime, names, cfg)
    ensures store.checked == old(store.checked) && store.unparsed == old(store.unparsed)
    ensures store.challengeLog == old(store.challengeLog)
  {
    var sid := AccountOf(p);
    var lb := store.leaderboard;
    var streak := if sid in lb then lb[sid].streak else NoStreak;
    var prof := if sid in lb && lb[sid].profile.Some? then lb[sid].profile.value else NewProfile(cfg, sid);
    assert streak == StreakOf(lb, sid);
    assert prof == if ProfileOf(lb, sid).Some? then ProfileOf(lb, sid).value else NewProfile(cfg, sid);
    var q := CreditProfile(prof, id, FreshRecord(m, p, matchTime, names, cfg), Share(triggers, sid));
    store.leaderboard := lb[sid := Entry(streak, Some(q))];
  }

  /** The summary of the match (a fresh one when absent) and the running
      total, raised by the player's share. */
  method CreditProfile(prof: Profile, id: int, start: MatchRecord, share: seq<Trigger>) returns (q: Profile)
    ensures q == Credit(prof, id, start, share)
  {
    var rec := if id in prof.matches then prof.matches[id] else start;
    var rec', total := AddTriggers(rec, prof.totalPoints, share);
    var order := if id in prof.matches then prof.order else prof.order + [id];
    q := Profile(prof.name, total, order, prof.matches[id := rec']);
  }

  /** One trigger of the share: its entry is appended and both totals grow. */
  method AddOne(rec: MatchRecord, total: int, share: seq<Trigger>, j: nat, challenges: seq<ChallengeEntry>, subtotal: int, running: int)
      returns (challenges': seq<ChallengeEntry>, subtotal': int, running': int)
    requires j < |share|
    requires challenges == rec.challenges + Entries(share[..j])
    requires subtotal == rec.totalInMatch + Total(share[..j]) && running == total + Total(share[..j])
    ensures challenges' == rec.challenges + Entries(share[..j + 1])
    ensures subtotal' == rec.totalInMatch + Total(share[..j + 1]) && running' == total + Total(share[..j + 1])
  {
    ghost var prefix := share[..j];
    assert share[..j + 1][..j] == prefix;
    assert Total(share[..j + 1]) == Total(prefix) + share[j].points;
    var e := ChallengeEntry(share[j].challenge, share[j].points);
    assert Entries(share[..j + 1]) == Entries(prefix) + [e];
    challenges' := challenges + [e];
    assert challenges' == rec.challenges + (Entries(prefix) + [e]);
    subtotal' := subtotal + share[j].points;
    running' := running + share[j].points;
  }

  /** Append each trigger of the player to the match summary and add its
      points to the subtotal and to the running total. */
  method AddTriggers(rec: MatchRecord, total: int, share: seq<Trigger>) returns (rec': MatchRecord, total': int)
    ensures rec' == rec.(challenges := rec.challenges + Entries(share), totalInMatch := rec.totalInMatch + Total(share))
    ensures total' == total + Total(share)
  {
    var challenges, subtotal := rec.challenges, rec.totalInMatch;
    total' := total;
    var j := 0;
    while j < |share|
      invariant 0 <= j <= |share|
      invariant challenges == rec.challenges + Entries(share[..j])
      invariant subtotal == rec.totalInMatch + Total(share[..j])
      invariant total' == total + Total(share[..j])
    {
      challenges, subtotal, total' := AddOne(rec, total, share, j, challenges, subtotal, total');
      j := j + 1;
    }
    assert share[..|share|] == share;
    rec' := rec.(challenges := challenges, totalInMatch := subtotal);
  }
}
