/** The rule engine: for each tracked player of a parsed match, the ordered
    list of reward and penalty triggers, and the win/lose streak kept for the
    player in the leaderboard. */
module Challenges {
  import opened MatchData
  import opened Triggers
  import opened Store

  const QuickGameSeconds: int := 1500
  const AllBarracksStanding: int := 63
  const StreakLength: int := 5
  const StackSize: int := 5

  /** The streak after one more result: a win extends a win run only when the
      previous recorded result was a win, and resets the lose run; a loss is
      symmetric. */
  function NextStreak(s: Streak, win: bool): (t: Streak)
    ensures StreakOk(t)
    ensures t.lastWin == Some(win)
    ensures win ==> t.loseStreak == 0 && t.winStreak >= 1
    ensures !win ==> t.winStreak == 0 && t.loseStreak >= 1
  {
    if win then Streak(Some(true), if s.lastWin == Some(true) then s.winStreak + 1 else 1, 0)
    else Streak(Some(false), 0, if s.lastWin == Some(false) then s.loseStreak + 1 else 1)
  }

  /** The streak state stored for a player; keys that are absent read as unset and 0. */
  function StreakOf(lb: map<int, Entry>, sid: int): Streak
  {
    if sid in lb then lb[sid].streak else NoStreak
  }

  /** The per-match keys stored for a player, kept as they are by the rule engine. */
  function ProfileOf(lb: map<int, Entry>, sid: int): Option<Profile>
  {
    if sid in lb then lb[sid].profile else None
  }

  /** The rampage count: key 5 of the multi-kill histogram, 0 when the
      histogram or the key is absent. */
  function Rampages(p: Player): int
  {
    match p.multiKills
    case Some(mk) => if 5 in mk then mk[5] else 0
    case None => 0
  }

  /** 15 points for the first rampage and 3 more for each further one. */
  function RampagePoints(r: int): (pts: int)
    requires r > 0
    ensures pts >= 15 && (pts - 15) % 3 == 0
    ensures pts == 15 <==> r == 1
  {
    15 + (r - 1) * 3
  }

  /** 5 points, doubled when deathless, then tripled when without assists. */
  function HighKillPoints(deaths: int, assists: int): (pts: int)
    ensures pts in {5, 10, 15, 30}
    ensures pts == 30 <==> deaths == 0 && assists == 0
    ensures pts == 5 <==> deaths != 0 && assists != 0
    ensures pts == 10 <==> deaths == 0 && assists != 0
    ensures pts == 15 <==> deaths != 0 && assists == 0
  {
    var doubled := if deaths == 0 then 5 * 2 else 5;
    if assists == 0 then doubled * 3 else doubled
  }

  /** −3 for no tower damage at all, −1 for some but under 100. */
  function TowerPenalty(towerDamage: int): int
  {
    if towerDamage == 0 then -3 else -1
  }

  /** −40 for a game without kills or assists, −20 without kills only. */
  function ZeroKillPenalty(assists: int): int
  {
    if assists == 0 then -40 else -20
  }

  /** −20 for 20+ deaths without a kill, −10 otherwise. */
  function DeathPenalty(kills: int): int
  {
    if kills == 0 then -20 else -10
  }

  /** One row of the rule table: whether it fires, what it is called, what it is worth. */
  datatype Rule = Rule(fires: bool, challenge: Challenge, points: int)

  /** The fields every trigger of one player in one match shares. */
  datatype Base = Base(steamId: int, matchId: Option<int>, hero: string, kda: Kda)

  /** The rule table for player p, whose streak after this match is ns, in the
      order the engine evaluates the rules: rewards first, then penalties. */
  function Rules(m: Match, p: Player, ns: Streak): seq<Rule>
  {
    var kills := OrZero(p.kills);
    var deaths := OrZero(p.deaths);
    var assists := OrZero(p.assists);
    var tower := OrZero(p.towerDamage);
    var win := Won(p);
    var duration := OrZero(m.duration);
    var enemy := EnemyBarracks(m, p);
    var stack := p.partySize == Some(StackSize);
    var r := Rampages(p);
    [ Rule(stack && win, FiveStackWin, 5),
      Rule(r > 0, Rampage(r), if r > 0 then RampagePoints(r) else 0),
      Rule(win && ns.winStreak == StreakLength, FiveWinStreak, 5),
      Rule(win && ns.winStreak > StreakLength, WinStreakExtended, 1),
      Rule(win && duration < QuickGameSeconds, QuickWin, 3),
      Rule(kills >= 15, HighKillGame, HighKillPoints(deaths, assists)),
      Rule(win && enemy == AllBarracksStanding, WinVsFullEnemyMegas, 10),
      Rule(win && enemy != AllBarracksStanding, WinWithoutAllBarracks, 1),
      Rule(stack && !win, FiveStackLoss, -5),
      Rule(tower < 100, LowTowerDamage, TowerPenalty(tower)),
      Rule(kills == 0, ZeroKillGame, ZeroKillPenalty(assists)),
      Rule(!win && ns.loseStreak == StreakLength, FiveLossStreak, -5),
      Rule(!win && ns.loseStreak > StreakLength, LossStreakExtended, -1),
      Rule(!win && enemy == 0, LostVsMegas, -5),
      Rule(deaths >= 20, TwentyDeaths, DeathPenalty(kills)),
      Rule(!win && duration < QuickGameSeconds, QuickLoss, -5) ]
  }

  /** No two rows of a table name the same challenge. */
  predicate DistinctChallenges(rules: seq<Rule>)
  {
    forall i, j :: 0 <= i < j < |rules| ==> rules[i].challenge != rules[j].challenge
  }

  lemma RulesDistinct(m: Match, p: Player, ns: Streak)
    ensures |Rules(m, p, ns)| == 16
    ensures DistinctChallenges(Rules(m, p, ns))
  {
  }

  /** The triggers of the rows that fire, in table order. */
  function Emit(b: Base, rules: seq<Rule>): (ts: seq<Trigger>)
    ensures |ts| <= |rules|
    ensures forall t :: t in ts ==> t.steamId == b.steamId
  {
    if rules == [] then []
    else
      Emit(b, rules[..|rules| - 1]) +
        (var r := rules[|rules| - 1];
         if r.fires then [Trigger(b.steamId, b.matchId, b.hero, b.kda, r.challenge, r.points)] else [])
  }

  /** In a table without repeated challenges, the triggers of the challenge of
      row i are that row's points if it fires, and nothing otherwise. */
  lemma {:induction false} SelectRow(b: Base, rules: seq<Rule>, i: int)
    requires DistinctChallenges(rules) && 0 <= i < |rules|
    ensures Select(Emit(b, rules), rules[i].challenge) == if rules[i].fires then [rules[i].points] else []
    decreases |rules|
  {
    var init := rules[..|rules| - 1];
    var c := rules[i].challenge;
    var last := rules[|rules| - 1];
    var piece := if last.fires then [Trigger(b.steamId, b.matchId, b.hero, b.kda, last.challenge, last.points)] else [];
    assert Emit(b, rules) == Emit(b, init) + piece;
    SelectAppend(Emit(b, init), piece, c);
    assert forall j :: 0 <= j < |init| ==> init[j] == rules[j];
    if i == |rules| - 1 {
      SelectAbsent(b, init, c);
      assert Select(piece, c) == if last.fires then [last.points] else [];
    } else {
      assert last.challenge != c;
      assert Select(piece, c) == [];
      SelectRow(b, init, i);
    }
  }

  /** A challenge named by no row never fires. */
  lemma {:induction false} SelectAbsent(b: Base, rules: seq<Rule>, c: Challenge)
    requires forall i :: 0 <= i < |rules| ==> rules[i].challenge != c
    ensures Select(Emit(b, rules), c) == []
    decreases |rules|
  {
    if rules != [] {
      var init := rules[..|rules| - 1];
      assert forall i :: 0 <= i < |init| ==> init[i] == rules[i];
      SelectAbsent(b, init, c);
      var r := rules[|rules| - 1];
      var piece := if r.fires then [Trigger(b.steamId, b.matchId, b.hero, b.kda, r.challenge, r.points)] else [];
      assert Emit(b, rules) == Emit(b, init) + piece;
      SelectAppend(Emit(b, init), piece, c);
    }
  }

  /** The display fields of player p's triggers. */
  function BaseOf(m: Match, p: Player, cfg: Config): Base
  {
    Base(AccountOf(p), m.matchId, HeroName(cfg.heroes, p.heroId),
         Kda(OrZero(p.kills), OrZero(p.deaths), OrZero(p.assists)))
  }

  /** The triggers of player p, whose streak after this match is ns. */
  function PlayerTriggers(m: Match, p: Player, ns: Streak, cfg: Config): seq<Trigger>
  {
    Emit(BaseOf(m, p, cfg), Rules(m, p, ns))
  }

  /** The points a challenge earns player p, as a list that is empty when it
      does not fire; each challenge fires at most once per player and match. */
  lemma RuleOf(m: Match, p: Player, ns: Streak, cfg: Config, i: int, r: Rule)
    requires 0 <= i < 16 && Rules(m, p, ns)[i] == r
    ensures Select(PlayerTriggers(m, p, ns, cfg), r.challenge) == if r.fires then [r.points] else []
  {
    RulesDistinct(m, p, ns);
    SelectRow(BaseOf(m, p, cfg), Rules(m, p, ns), i);
  }

  /** "5 Win Streak" (+5) exactly when the win run reaches 5, "Win Streak
      Extended" (+1) exactly when it passes 5; the loss rules mirror these. */
  lemma StreakRules(m: Match, p: Player, ns: Streak, cfg: Config)
    ensures Select(PlayerTriggers(m, p, ns, cfg), FiveWinStreak) == if Won(p) && ns.winStreak == 5 then [5] else []
    ensures Select(PlayerTriggers(m, p, ns, cfg), WinStreakExtended) == if Won(p) && ns.winStreak > 5 then [1] else []
    ensures Select(PlayerTriggers(m, p, ns, cfg), FiveLossStreak) == if !Won(p) && ns.loseStreak == 5 then [-5] else []
    ensures Select(PlayerTriggers(m, p, ns, cfg), LossStreakExtended) == if !Won(p) && ns.loseStreak > 5 then [-1] else []
  {
    var win := Won(p);
    RuleOf(m, p, ns, cfg, 2, Rule(win && ns.winStreak == 5, FiveWinStreak, 5));
    RuleOf(m, p, ns, cfg, 3, Rule(win && ns.winStreak > 5, WinStreakExtended, 1));
    RuleOf(m, p, ns, cfg, 11, Rule(!win && ns.loseStreak == 5, FiveLossStreak, -5));
    RuleOf(m, p, ns, cfg, 12, Rule(!win && ns.loseStreak > 5, LossStreakExtended, -1));
  }

  /** One "Rampage x{r}" trigger worth 15 + 3(r − 1) when the histogram
      counts r > 0 rampages, and no rampage trigger of any count otherwise. */
  lemma RampageRule(m: Match, p: Player, ns: Streak, cfg: Config, k: int)
    ensures Select(PlayerTriggers(m, p, ns, cfg), Rampage(k)) ==
              if k == Rampages(p) && k > 0 then [15 + 3 * (k - 1)] else []
  {
    var r := Rampages(p);
    if k == r {
      RuleOf(m, p, ns, cfg, 1, Rule(r > 0, Rampage(r), if r > 0 then RampagePoints(r) else 0));
    } else {
      RampageAbsent(m, p, ns, k);
      SelectAbsent(BaseOf(m, p, cfg), Rules(m, p, ns), Rampage(k));
    }
  }

  /** Only row 1 of the table is a rampage row, and it counts the histogram's rampages. */
  lemma RampageAbsent(m: Match, p: Player, ns: Streak, k: int)
    requires k != Rampages(p)
    ensures forall i :: 0 <= i < |Rules(m, p, ns)| ==> Rules(m, p, ns)[i].challenge != Rampage(k)
  {
  }

  /** "15+ Kill Game" fires from 15 kills on, worth 5, doubled when deathless
      and tripled when without assists. */
  lemma HighKillRule(m: Match, p: Player, ns: Streak, cfg: Config)
    ensures Select(PlayerTriggers(m, p, ns, cfg), HighKillGame) ==
            if OrZero(p.kills) >= 15
            then [(if OrZero(p.deaths) == 0 then 10 else 5) * (if OrZero(p.assists) == 0 then 3 else 1)]
            else []
  {
    var kills := OrZero(p.kills);
    RuleOf(m, p, ns, cfg, 5, Rule(kills >= 15, HighKillGame, HighKillPoints(OrZero(p.deaths), OrZero(p.assists))));
  }

  /** A winner gets exactly one of the two barracks triggers: +10 when the
      enemy barracks value is 63, +1 otherwise; a loser gets neither, and gets
      "Lost vs Megas" (−5) exactly when the enemy barracks value is 0. */
  lemma BarracksRules(m: Match, p: Player, ns: Streak, cfg: Config)
    ensures var ts := PlayerTriggers(m, p, ns, cfg);
            |Select(ts, WinVsFullEnemyMegas)| + |Select(ts, WinWithoutAllBarracks)| == (if Won(p) then 1 else 0)
    ensures Select(PlayerTriggers(m, p, ns, cfg), WinVsFullEnemyMegas) ==
              if Won(p) && EnemyBarracks(m, p) == 63 then [10] else []
    ensures Select(PlayerTriggers(m, p, ns, cfg), LostVsMegas) ==
              if !Won(p) && EnemyBarracks(m, p) == 0 then [-5] else []
  {
    var win, enemy := Won(p), EnemyBarracks(m, p);
    RuleOf(m, p, ns, cfg, 6, Rule(win && enemy == 63, WinVsFullEnemyMegas, 10));
    RuleOf(m, p, ns, cfg, 7, Rule(win && enemy != 63, WinWithoutAllBarracks, 1));
    RuleOf(m, p, ns, cfg, 13, Rule(!win && enemy == 0, LostVsMegas, -5));
  }

  /** The penalties that fire whatever the result: low tower damage, no
      kills, twenty deaths. */
  lemma PenaltyRules(m: Match, p: Player, ns: Streak, cfg: Config)
    ensures Select(PlayerTriggers(m, p, ns, cfg), LowTowerDamage) ==
              if OrZero(p.towerDamage) == 0 then [-3] else if OrZero(p.towerDamage) < 100 then [-1] else []
    ensures Select(PlayerTriggers(m, p, ns, cfg), ZeroKillGame) ==
              if OrZero(p.kills) == 0 then [if OrZero(p.assists) == 0 then -40 else -20] else []
    ensures Select(PlayerTriggers(m, p, ns, cfg), TwentyDeaths) ==
              if OrZero(p.deaths) >= 20 then [if OrZero(p.kills) == 0 then -20 else -10] else []
  {
    var kills, deaths, assists, tower := OrZero(p.kills), OrZero(p.deaths), OrZero(p.assists), OrZero(p.towerDamage);
    RuleOf(m, p, ns, cfg, 9, Rule(tower < 100, LowTowerDamage, TowerPenalty(tower)));
    RuleOf(m, p, ns, cfg, 10, Rule(kills == 0, ZeroKillGame, ZeroKillPenalty(assists)));
    RuleOf(m, p, ns, cfg, 14, Rule(deaths >= 20, TwentyDeaths, DeathPenalty(kills)));
  }

  /** The quick-game rules: +3 for a win and −5 for a loss under 1500 seconds. */
  lemma QuickRules(m: Match, p: Player, ns: Streak, cfg: Config)
    ensures Select(PlayerTriggers(m, p, ns, cfg), QuickWin) ==
              if Won(p) && OrZero(m.duration) < 1500 then [3] else []
    ensures Select(PlayerTriggers(m, p, ns, cfg), QuickLoss) ==
              if !Won(p) && OrZero(m.duration) < 1500 then [-5] else []
  {
    var win, duration := Won(p), OrZero(m.duration);
    RuleOf(m, p, ns, cfg, 4, Rule(win && duration < QuickGameSeconds, QuickWin, 3));
    RuleOf(m, p, ns, cfg, 15, Rule(!win && duration < QuickGameSeconds, QuickLoss, -5));
  }

  /** The party-of-five rules: +5 for a win and −5 for a loss. */
  lemma StackRules(m: Match, p: Player, ns: Streak, cfg: Config)
    ensures Select(PlayerTriggers(m, p, ns, cfg), FiveStackWin) ==
              if Won(p) && p.partySize == Some(5) then [5] else []
    ensures Select(PlayerTriggers(m, p, ns, cfg), FiveStackLoss) ==
              if !Won(p) && p.partySize == Some(5) then [-5] else []
  {
    var win, stack := Won(p), p.partySize == Some(StackSize);
    RuleOf(m, p, ns, cfg, 0, Rule(stack && win, FiveStackWin, 5));
    RuleOf(m, p, ns, cfg, 8, Rule(stack && !win, FiveStackLoss, -5));
  }

  /** The engine over the tracked players fs, in order, each one reading the
      streak state the earlier ones left: the triggers and the new leaderboard. */
  function ScoreFriends(m: Match, fs: seq<Player>, lb: map<int, Entry>, cfg: Config): (seq<Trigger>, map<int, Entry>)
  {
    if fs == [] then ([], lb)
    else
      var (ts, lb1) := ScoreFriends(m, fs[..|fs| - 1], lb, cfg);
      var p := fs[|fs| - 1];
      var sid := AccountOf(p);
      var ns := NextStreak(StreakOf(lb1, sid), Won(p));
      (ts + PlayerTriggers(m, p, ns, cfg), lb1[sid := Entry(ns, ProfileOf(lb1, sid))])
  }

  /** `check_challenges` as a value: the triggers and the leaderboard it leaves. */
  function Score(m: Match, lb: map<int, Entry>, cfg: Config): (seq<Trigger>, map<int, Entry>)
  {
    ScoreFriends(m, Friends(m.players, cfg.roster.Keys), lb, cfg)
  }

  /** `check_challenges`: one pass over the tracked players, appending each
      one's triggers and writing back its streak state. */
  method CheckChallenges(m: Match, store: Store, cfg: Config) returns (triggers: seq<Trigger>, matchTime: int)
    modifies store
    ensures (triggers, store.leaderboard) == Score(m, old(store.leaderboard), cfg)
    ensures matchTime == MatchTime(m)
    ensures store.checked == old(store.checked) && store.unparsed == old(store.unparsed)
    ensures store.challengeLog == old(store.challengeLog)
  {
    matchTime := MatchTime(m);
    var friends := Friends(m.players, cfg.roster.Keys);
    if friends == [] {
      return [], matchTime;
    }
    triggers := [];
    ghost var start := store.leaderboard;
    var i := 0;
    while i < |friends|
      invariant 0 <= i <= |friends|
      invariant (triggers, store.leaderboard) == ScoreFriends(m, friends[..i], start, cfg)
      invariant store.checked == old(store.checked) && store.unparsed == old(store.unparsed)
      invariant store.challengeLog == old(store.challengeLog)
    {
      triggers := CheckStep(m, store, cfg, friends, i, start, triggers);
      i := i + 1;
    }
    assert friends[..|friends|] == friends;
  }

  /** One tracked player of the pass: its entry is created when missing, its
      streak advanced and its triggers appended. */
  method CheckStep(m: Match, store: Store, cfg: Config, friends: seq<Player>, i: nat, ghost start: map<int, Entry>,
                   triggers: seq<Trigger>) returns (triggers': seq<Trigger>)
    requires i < |friends|
    requires (triggers, store.leaderboard) == ScoreFriends(m, friends[..i], start, cfg)
    modifies store
    ensures (triggers', store.leaderboard) == ScoreFriends(m, friends[..i + 1], start, cfg)
    ensures store.checked == old(store.checked) && store.unparsed == old(store.unparsed)
    ensures store.challengeLog == old(store.challengeLog)
  {
    var p := friends[i];
    var sid := AccountOf(p);
    ghost var lb0 := store.leaderboard;
    if sid !in store.leaderboard {
      store.leaderboard := store.leaderboard[sid := Entry(NoStreak, None)];
    }
    var last := store.leaderboard[sid].streak;
    var ns := NextStreak(last, Won(p));
    var kept := store.leaderboard[sid].profile;
    assert last == StreakOf(lb0, sid) && kept == ProfileOf(lb0, sid);
    triggers' := triggers + PlayerTriggers(m, p, ns, cfg);
    store.leaderboard := store.leaderboard[sid := Entry(ns, kept)];
    if sid !in lb0 {
      UpdateTwice(lb0, sid, Entry(NoStreak, None), Entry(ns, kept));
    }
    ScoreStep(m, friends, i, start, cfg, triggers, lb0);
  }

  lemma UpdateTwice(lb: map<int, Entry>, k: int, a: Entry, b: Entry)
    ensures lb[k := a][k := b] == lb[k := b]
  {
  }

  /** One more player: the triggers grow by that player's table and its entry
      gets the successor streak, keeping its per-match keys. */
  lemma ScoreStep(m: Match, fs: seq<Player>, i: int, lb: map<int, Entry>, cfg: Config, ts: seq<Trigger>, lb1: map<int, Entry>)
    requires 0 <= i < |fs| && (ts, lb1) == ScoreFriends(m, fs[..i], lb, cfg)
    ensures var sid := AccountOf(fs[i]);
            var ns := NextStreak(StreakOf(lb1, sid), Won(fs[i]));
            ScoreFriends(m, fs[..i + 1], lb, cfg) == (ts + PlayerTriggers(m, fs[i], ns, cfg), lb1[sid := Entry(ns, ProfileOf(lb1, sid))])
  {
    assert fs[..i + 1][..i] == fs[..i];
  }

  /** With no tracked player in the match there are no triggers and the
      leaderboard is untouched. */
  lemma NoFriendsNoChange(m: Match, lb: map<int, Entry>, cfg: Config)
    requires forall p :: p in m.players ==> !IsTracked(p, cfg.roster.Keys)
    ensures Score(m, lb, cfg) == ([], lb)
  {
    FriendsNone(m.players, cfg.roster.Keys);
  }

  /** The account ids of a list of players. */
  function IdSet(fs: seq<Player>): set<int>
  {
    set p | p in fs :: AccountOf(p)
  }

  /** Only the tracked players' entries are written: every other entry is
      kept, every written entry keeps its per-match keys, and every written
      streak satisfies the streak invariant. */
  lemma {:induction false} ScoreFriendsFrame(m: Match, fs: seq<Player>, lb: map<int, Entry>, cfg: Config)
    ensures var lb' := ScoreFriends(m, fs, lb, cfg).1;
            && lb'.Keys == lb.Keys + IdSet(fs)
            && (forall sid :: sid in lb && sid !in IdSet(fs) ==> lb'[sid] == lb[sid])
            && (forall sid :: sid in lb' ==> lb'[sid].profile == ProfileOf(lb, sid))
            && (forall sid :: sid in IdSet(fs) ==> StreakOk(lb'[sid].streak) && lb'[sid].streak.lastWin.Some?)
    decreases |fs|
  {
    if fs != [] {
      var init := fs[..|fs| - 1];
      ScoreFriendsFrame(m, init, lb, cfg);
      IdSetSnoc(fs);
    }
  }

  lemma IdSetSnoc(fs: seq<Player>)
    requires fs != []
    ensures IdSet(fs) == IdSet(fs[..|fs| - 1]) + {AccountOf(fs[|fs| - 1])}
  {
    var init := fs[..|fs| - 1];
    assert fs == init + [fs[|fs| - 1]];
    forall sid | sid in IdSet(fs) ensures sid in IdSet(init) + {AccountOf(fs[|fs| - 1])} {
      var p :| p in fs && AccountOf(p) == sid;
      if p != fs[|fs| - 1] {
        assert p in init;
      }
    }
  }

  /** The rule engine keeps the leaderboard invariant. */
  lemma ScorePreservesInvariant(m: Match, lb: map<int, Entry>, cfg: Config)
    requires LeaderboardOk(lb)
    ensures LeaderboardOk(Score(m, lb, cfg).1)
  {
    var fs := Friends(m.players, cfg.roster.Keys);
    ScoreFriendsFrame(m, fs, lb, cfg);
    var lb' := Score(m, lb, cfg).1;
    forall sid | sid in lb' ensures EntryOk(lb'[sid]) {
      if sid !in IdSet(fs) {
        assert lb'[sid] == lb[sid];
      } else if sid in lb {
        assert EntryOk(lb[sid]);
      }
    }
  }

  /** Every trigger belongs to one of the players scored. */
  lemma {:induction false} TriggersOfFriends(m: Match, fs: seq<Player>, lb: map<int, Entry>, cfg: Config)
    ensures forall t :: t in ScoreFriends(m, fs, lb, cfg).0 ==> t.steamId in IdSet(fs)
    decreases |fs|
  {
    if fs != [] {
      var init := fs[..|fs| - 1];
      TriggersOfFriends(m, init, lb, cfg);
      assert forall p :: p in init ==> p in fs;
      assert fs[|fs| - 1] in fs;
    }
  }

  /** For a player listed once among the scored players, the player's share of
      the triggers is exactly the rule table evaluated against the streak state
      found before the match, and the stored streak is its successor. */
  lemma {:induction false} ShareOfFriend(m: Match, fs: seq<Player>, lb: map<int, Entry>, cfg: Config, i: int)
    requires 0 <= i < |fs|
    requires forall j :: 0 <= j < |fs| && j != i ==> AccountOf(fs[j]) != AccountOf(fs[i])
    ensures var sid := AccountOf(fs[i]);
            var ns := NextStreak(StreakOf(lb, sid), Won(fs[i]));
            && Share(ScoreFriends(m, fs, lb, cfg).0, sid) == PlayerTriggers(m, fs[i], ns, cfg)
            && StreakOf(ScoreFriends(m, fs, lb, cfg).1, sid) == ns
    decreases |fs|
  {
    var sid := AccountOf(fs[i]);
    var init := fs[..|fs| - 1];
    var p := fs[|fs| - 1];
    var (ts, lb1) := ScoreFriends(m, init, lb, cfg);
    var ns := NextStreak(StreakOf(lb1, AccountOf(p)), Won(p));
    var mine := PlayerTriggers(m, p, ns, cfg);
    assert ScoreFriends(m, fs, lb, cfg) == (ts + mine, lb1[AccountOf(p) := Entry(ns, ProfileOf(lb1, AccountOf(p)))]);
    ShareAppend(ts, mine, sid);
    ShareOwned(mine, AccountOf(p), sid);
    assert forall j :: 0 <= j < |init| ==> init[j] == fs[j];
    if i == |fs| - 1 {
      ShareNone(m, init, lb, cfg, sid);
    } else {
      assert AccountOf(p) != sid;
      ShareOfFriend(m, init, lb, cfg, i);
    }
  }

  /** A player not among the scored players has no triggers and an unchanged streak. */
  lemma ShareNone(m: Match, fs: seq<Player>, lb: map<int, Entry>, cfg: Config, sid: int)
    requires forall j :: 0 <= j < |fs| ==> AccountOf(fs[j]) != sid
    ensures Share(ScoreFriends(m, fs, lb, cfg).0, sid) == []
    ensures StreakOf(ScoreFriends(m, fs, lb, cfg).1, sid) == StreakOf(lb, sid)
  {
    assert sid !in IdSet(fs);
    TriggersOfFriends(m, fs, lb, cfg);
    ShareOwnedNone(ScoreFriends(m, fs, lb, cfg).0, sid);
    ScoreFriendsFrame(m, fs, lb, cfg);
  }

  /** A list with no trigger of a player has an empty share for that player. */
  lemma {:induction false} ShareOwnedNone(ts: seq<Trigger>, sid: int)
    requires forall t :: t in ts ==> t.steamId != sid
    ensures Share(ts, sid) == []
    decreases |ts|
  {
    if ts != [] {
      assert ts[|ts| - 1] in ts;
      assert forall t :: t in ts[..|ts| - 1] ==> t in ts;
      ShareOwnedNone(ts[..|ts| - 1], sid);
    }
  }

  /** The streak after a run of results. */
  function Replay(s: Streak, results: seq<bool>): Streak
  {
    if results == [] then s else NextStreak(Replay(s, results[..|results| - 1]), results[|results| - 1])
  }

  /** n wins in a row after anything but a win leave a win run of exactly n,
      so "5 Win Streak" is earned by the fifth win of a run and only then. */
  lemma {:induction false} WinRun(s: Streak, n: nat)
    requires n >= 1 && s.lastWin != Some(true)
    ensures Replay(s, seq(n, _ => true)) == Streak(Some(true), n, 0)
    decreases n
  {
    if n > 1 {
      WinRun(s, n - 1);
      assert seq(n, _ => true)[..n - 1] == seq(n - 1, _ => true);
    }
  }

  /** The symmetric statement for losses. */
  lemma {:induction false} LossRun(s: Streak, n: nat)
    requires n >= 1 && s.lastWin != Some(false)
    ensures Replay(s, seq(n, _ => false)) == Streak(Some(false), 0, n)
    decreases n
  {
    if n > 1 {
      LossRun(s, n - 1);
      assert seq(n, _ => false)[..n - 1] == seq(n - 1, _ => false);
    }
  }
}
