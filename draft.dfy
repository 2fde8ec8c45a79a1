/** The earlier, self-contained checker: its own rule table (loss rewards,
    the cross-player team rules), and its run, which pages through each
    tracked account's history and writes points, history and daily totals. */
module DraftChecker {
  import opened MatchData

  datatype Challenge =
    | Pacifist
    | SilentSupporter
    | SiegeBreaker
    | Tragic20
    | TwentyBomb
    | ImmortalReverse
    | WetNoodle
    | ThrowbackThrow
    | DoubleDisasterDuo

  function Title(c: Challenge): string
  {
    match c
    case Pacifist => "Pacifist"
    case SilentSupporter => "Silent Supporter"
    case SiegeBreaker => "Siege Breaker"
    case Tragic20 => "Tragic 20"
    case TwentyBomb => "Twenty Bomb"
    case ImmortalReverse => "Immortal Reverse"
    case WetNoodle => "Wet Noodle"
    case ThrowbackThrow => "Throwback Throw"
    case DoubleDisasterDuo => "Double Disaster Duo"
  }

  /** The fixed worth of each challenge. */
  function Worth(c: Challenge): int
  {
    match c
    case Pacifist => 10
    case SilentSupporter => 15
    case SiegeBreaker => 5
    case Tragic20 => 50
    case TwentyBomb => 5
    case ImmortalReverse => -10
    case WetNoodle => 3
    case ThrowbackThrow => 8
    case DoubleDisasterDuo => 30
  }

  /** A fired rule. The account id is `None` for an anonymous player, whom
      the duo rule can name. */
  datatype Tr = Tr(steamId: Option<int>, matchId: Option<int>, challenge: Challenge, points: int)

  function Fire(p: Player, mid: Option<int>, c: Challenge): Tr
  {
    Tr(p.accountId, mid, c, Worth(c))
  }

  function When(cond: bool, t: Tr): seq<Tr>
  {
    if cond then [t] else []
  }

  /** The triggers of one account, in order. */
  function For(ts: seq<Tr>, x: Option<int>): seq<Tr>
  {
    if ts == [] then [] else For(ts[..|ts| - 1], x) + (if ts[|ts| - 1].steamId == x then [ts[|ts| - 1]] else [])
  }

  lemma {:induction false} ForAppend(a: seq<Tr>, b: seq<Tr>, x: Option<int>)
    ensures For(a + b, x) == For(a, x) + For(b, x)
    decreases |b|
  {
    if b == [] {
      assert a + b == a;
    } else {
      ForAppend(a, b[..|b| - 1], x);
      assert (a + b)[..|a + b| - 1] == a + b[..|b| - 1];
    }
  }

  /** How many triggers of challenge c a list holds. */
  function Count(ts: seq<Tr>, c: Challenge): nat
  {
    if ts == [] then 0 else Count(ts[..|ts| - 1], c) + (if ts[|ts| - 1].challenge == c then 1 else 0)
  }

  lemma {:induction false} CountAppend(a: seq<Tr>, b: seq<Tr>, c: Challenge)
    ensures Count(a + b, c) == Count(a, c) + Count(b, c)
    decreases |b|
  {
    if b == [] {
      assert a + b == a;
    } else {
      CountAppend(a, b[..|b| - 1], c);
      assert (a + b)[..|a + b| - 1] == a + b[..|b| - 1];
    }
  }

  lemma {:induction false} CountNone(ts: seq<Tr>, c: Challenge)
    requires forall t :: t in ts ==> t.challenge != c
    ensures Count(ts, c) == 0
    decreases |ts|
  {
    if ts != [] {
      assert forall t :: t in ts[..|ts| - 1] ==> t in ts;
      CountNone(ts[..|ts| - 1], c);
    }
  }

  /** The sum of the points of a list. */
  function Sum(ts: seq<Tr>): int
  {
    if ts == [] then 0 else Sum(ts[..|ts| - 1]) + ts[|ts| - 1].points
  }

  predicate IsLossRule(c: Challenge)
  {
    c.Pacifist? || c.SilentSupporter? || c.SiegeBreaker? || c.Tragic20? || c.TwentyBomb?
  }

  // ---------------------------------------------------------------------
  // The rule table.

  /** The loss rewards of one tracked player; a winner gets none. */
  function LossFor(p: Player, mid: Option<int>): (r: seq<Tr>)
    ensures forall t :: t in r ==> IsLossRule(t.challenge) && t.steamId == p.accountId
  {
    if Won(p) then []
    else
      var k, d, a, tw := OrZero(p.kills), OrZero(p.deaths), OrZero(p.assists), OrZero(p.towerDamage);
      When(k == 0, Fire(p, mid, Pacifist)) + When(a == 0, Fire(p, mid, SilentSupporter))
      + When(tw == 0, Fire(p, mid, SiegeBreaker)) + When(k == 0 && d >= 20, Fire(p, mid, Tragic20))
      + When(d >= 20, Fire(p, mid, TwentyBomb))
  }

  /** The loss rewards of the tracked players, in match order. */
  function LossRules(fs: seq<Player>, mid: Option<int>): (r: seq<Tr>)
    ensures forall t :: t in r ==> IsLossRule(t.challenge)
  {
    if fs == [] then [] else LossRules(fs[..|fs| - 1], mid) + LossFor(fs[|fs| - 1], mid)
  }

  /** The winner's penalty, judged on the last tracked player only. */
  function Immortal(fs: seq<Player>, mid: Option<int>): (r: seq<Tr>)
    requires fs != []
    ensures forall t :: t in r ==> t.challenge == ImmortalReverse
  {
    var p := fs[|fs| - 1];
    When(Won(p) && OrZero(p.deaths) == 0, Fire(p, mid, ImmortalReverse))
  }

  /** The players on the losing side, tracked or not. */
  function Losers(ps: seq<Player>): (ls: seq<Player>)
    ensures forall p :: p in ls <==> p in ps && !Won(p)
  {
    if ps == [] then []
    else
      assert ps == ps[..|ps| - 1] + [ps[|ps| - 1]];
      Losers(ps[..|ps| - 1]) + (if Won(ps[|ps| - 1]) then [] else [ps[|ps| - 1]])
  }

  function Damage(p: Player): int
  {
    OrZero(p.heroDamage)
  }

  /** The least hero damage of a non-empty list of players. */
  function Lowest(ls: seq<Player>): (v: int)
    requires ls != []
    ensures exists p :: p in ls && Damage(p) == v
    ensures forall p :: p in ls ==> v <= Damage(p)
  {
    if |ls| == 1 then Damage(ls[0])
    else
      assert ls == ls[..|ls| - 1] + [ls[|ls| - 1]];
      var v := Lowest(ls[..|ls| - 1]);
      var d := Damage(ls[|ls| - 1]);
      if d < v then d else v
  }

  /** The tracked players of `ls` whose damage is `low`, in order. */
  function WetFrom(ls: seq<Player>, low: int, tracked: set<int>, mid: Option<int>): (r: seq<Tr>)
    ensures forall t :: t in r <==> exists p :: p in ls && IsTracked(p, tracked) && Damage(p) == low && t == Fire(p, mid, WetNoodle)
  {
    if ls == [] then []
    else
      assert ls == ls[..|ls| - 1] + [ls[|ls| - 1]];
      var p := ls[|ls| - 1];
      WetFrom(ls[..|ls| - 1], low, tracked, mid) + When(IsTracked(p, tracked) && Damage(p) == low, Fire(p, mid, WetNoodle))
  }

  /** The low-damage rule over the whole losing side. */
  function Wet(ps: seq<Player>, tracked: set<int>, mid: Option<int>): seq<Tr>
  {
    var ls := Losers(ps);
    if ls == [] then [] else WetFrom(ls, Lowest(ls), tracked, mid)
  }

  /** The thrown-game rule over the tracked players; `None` when one of them
      has no slot, where the side test cannot be made. */
  function Throwback(m: Match, fs: seq<Player>, mid: Option<int>): (r: Option<seq<Tr>>)
    ensures r.Some? <==> forall p :: p in fs ==> p.playerSlot.Some?
    ensures r.Some? ==> forall t :: t in r.value <==>
              exists p :: p in fs && !Won(p) && EnemyBarracks(m, p) == 0 && t == Fire(p, mid, ThrowbackThrow)
  {
    if fs == [] then Some([])
    else
      assert fs == fs[..|fs| - 1] + [fs[|fs| - 1]];
      var p := fs[|fs| - 1];
      match Throwback(m, fs[..|fs| - 1], mid)
      case None => None
      case Some(prev) =>
        if p.playerSlot.None? then None
        else Some(prev + When(!Won(p) && EnemyBarracks(m, p) == 0, Fire(p, mid, ThrowbackThrow)))
  }

  /** The account ids of the losing players without a kill, anonymous ones
      included as `None`. */
  function ZeroKillers(ls: seq<Player>): (zk: seq<Option<int>>)
    ensures |zk| <= |ls|
  {
    if ls == [] then []
    else
      var p := ls[|ls| - 1];
      ZeroKillers(ls[..|ls| - 1]) + (if OrZero(p.kills) == 0 then [p.accountId] else [])
  }

  /** One duo award to x per entry of zk that differs from x. */
  function DuoFor(x: Option<int>, zk: seq<Option<int>>, mid: Option<int>): (r: seq<Tr>)
    ensures forall t :: t in r ==> t == Tr(x, mid, DoubleDisasterDuo, 30)
  {
    if zk == [] then [] else DuoFor(x, zk[..|zk| - 1], mid) + (if zk[|zk| - 1] != x then [Tr(x, mid, DoubleDisasterDuo, 30)] else [])
  }

  /** x is owed one award per entry of zk other than itself. */
  lemma {:induction false} DuoForLength(x: Option<int>, zk: seq<Option<int>>, mid: Option<int>)
    ensures |DuoFor(x, zk, mid)| == |zk| - multiset(zk)[x]
    decreases |zk|
  {
    if zk != [] {
      assert zk == zk[..|zk| - 1] + [zk[|zk| - 1]];
      DuoForLength(x, zk[..|zk| - 1], mid);
    }
  }

  /** The pair rule: for every entry of `outer`, its awards against `zk`. */
  function DuoAll(outer: seq<Option<int>>, zk: seq<Option<int>>, mid: Option<int>): seq<Tr>
  {
    if outer == [] then [] else DuoAll(outer[..|outer| - 1], zk, mid) + DuoFor(outer[|outer| - 1], zk, mid)
  }

  lemma {:induction false} DuoKind(outer: seq<Option<int>>, zk: seq<Option<int>>, mid: Option<int>)
    ensures forall t :: t in DuoAll(outer, zk, mid) ==> t.challenge == DoubleDisasterDuo && t.points == 30
    decreases |outer|
  {
    if outer != [] {
      DuoKind(outer[..|outer| - 1], zk, mid);
    }
  }

  function Duo(ps: seq<Player>, mid: Option<int>): seq<Tr>
  {
    var zk := ZeroKillers(Losers(ps));
    DuoAll(zk, zk, mid)
  }

  /** What the check hands back: the bare empty list, the side-test failure,
      or the triggers with the match start time. */
  datatype Outcome = BareList | SlotError | Scored(triggers: seq<Tr>, time: int)

  /** The check as written: a match without a tracked player yields the bare
      empty list. */
  function CheckAsWritten(m: Match, tracked: set<int>): Outcome
  {
    if Friends(m.players, tracked) == [] then BareList else Check(m, tracked)
  }

  /** The check with the no-friend case returning the pair its caller
      unpacks. */
  function Check(m: Match, tracked: set<int>): (r: Outcome)
    ensures !r.BareList?
    ensures Friends(m.players, tracked) == [] ==> r == Scored([], MatchTime(m))
    ensures r.SlotError? <==> exists p :: p in m.players && IsTracked(p, tracked) && p.playerSlot.None?
    ensures r.Scored? ==> r.time == MatchTime(m)
  {
    var fs := Friends(m.players, tracked);
    var mid := m.matchId;
    if fs == [] then Scored([], MatchTime(m))
    else
      match Throwback(m, fs, mid)
      case None => SlotError
      case Some(tb) =>
        Scored(LossRules(fs, mid) + Immortal(fs, mid) + Wet(m.players, tracked, mid) + tb + Duo(m.players, mid), MatchTime(m))
  }

  /** The caller's unpacking of the check's answer into triggers and time. */
  function Unpack(o: Outcome): Option<(seq<Tr>, int)>
  {
    match o
    case Scored(ts, time) => Some((ts, time))
    case _ => None
  }

  /** As written, a match without a tracked player stops the caller at the
      unpacking; with the pair returned it is scored with no triggers. */
  lemma BareListBreaksCaller(m: Match, tracked: set<int>)
    requires forall p :: p in m.players ==> !IsTracked(p, tracked)
    ensures Unpack(CheckAsWritten(m, tracked)) == None
    ensures Unpack(Check(m, tracked)) == Some(([], MatchTime(m)))
  {
    FriendsNone(m.players, tracked);
  }

  /** The two checks agree on every match with a tracked player. */
  lemma AsWrittenAgrees(m: Match, tracked: set<int>, p: Player)
    requires p in m.players && IsTracked(p, tracked)
    ensures CheckAsWritten(m, tracked) == Check(m, tracked)
  {
    assert p in Friends(m.players, tracked);
  }

  // ---------------------------------------------------------------------
  // Properties of the rules.

  lemma SumWhen(c: bool, t: Tr)
    ensures Sum(When(c, t)) == if c then t.points else 0
  {
    if c {
      assert [t][..0] == [];
    }
  }

  lemma CountWhen(c: bool, t: Tr, ch: Challenge)
    ensures Count(When(c, t), ch) == if c && t.challenge == ch then 1 else 0
  {
    if c {
      assert [t][..0] == [];
    }
  }

  lemma CountFive(s1: seq<Tr>, s2: seq<Tr>, s3: seq<Tr>, s4: seq<Tr>, s5: seq<Tr>, ch: Challenge)
    ensures Count(s1 + s2 + s3 + s4 + s5, ch) == Count(s1, ch) + Count(s2, ch) + Count(s3, ch) + Count(s4, ch) + Count(s5, ch)
  {
    CountAppend(s1 + s2 + s3 + s4, s5, ch);
    CountAppend(s1 + s2 + s3, s4, ch);
    CountAppend(s1 + s2, s3, ch);
    CountAppend(s1, s2, ch);
  }

  lemma SumFive(s1: seq<Tr>, s2: seq<Tr>, s3: seq<Tr>, s4: seq<Tr>, s5: seq<Tr>)
    ensures Sum(s1 + s2 + s3 + s4 + s5) == Sum(s1) + Sum(s2) + Sum(s3) + Sum(s4) + Sum(s5)
  {
    SumAppend(s1 + s2 + s3 + s4, s5);
    SumAppend(s1 + s2 + s3, s4);
    SumAppend(s1 + s2, s3);
    SumAppend(s1, s2);
  }

  /** The five loss rows of a losing player, in order. */
  lemma LossRows(p: Player, mid: Option<int>) returns (s1: seq<Tr>, s2: seq<Tr>, s3: seq<Tr>, s4: seq<Tr>, s5: seq<Tr>)
    requires !Won(p)
    ensures var k, d, a, tw := OrZero(p.kills), OrZero(p.deaths), OrZero(p.assists), OrZero(p.towerDamage);
            && s1 == When(k == 0, Fire(p, mid, Pacifist))
            && s2 == When(a == 0, Fire(p, mid, SilentSupporter))
            && s3 == When(tw == 0, Fire(p, mid, SiegeBreaker))
            && s4 == When(k == 0 && d >= 20, Fire(p, mid, Tragic20))
            && s5 == When(d >= 20, Fire(p, mid, TwentyBomb))
            && LossFor(p, mid) == s1 + s2 + s3 + s4 + s5
  {
    var k, d, a, tw := OrZero(p.kills), OrZero(p.deaths), OrZero(p.assists), OrZero(p.towerDamage);
    s1 := When(k == 0, Fire(p, mid, Pacifist));
    s2 := When(a == 0, Fire(p, mid, SilentSupporter));
    s3 := When(tw == 0, Fire(p, mid, SiegeBreaker));
    s4 := When(k == 0 && d >= 20, Fire(p, mid, Tragic20));
    s5 := When(d >= 20, Fire(p, mid, TwentyBomb));
  }

  /** The count of challenge ch among the five loss rows. */
  lemma LossCount(p: Player, mid: Option<int>, ch: Challenge)
    requires !Won(p)
    ensures var k, d, a, tw := OrZero(p.kills), OrZero(p.deaths), OrZero(p.assists), OrZero(p.towerDamage);
            Count(LossFor(p, mid), ch) ==
              if ch == Pacifist then (if k == 0 then 1 else 0)
              else if ch == SilentSupporter then (if a == 0 then 1 else 0)
              else if ch == SiegeBreaker then (if tw == 0 then 1 else 0)
              else if ch == Tragic20 then (if k == 0 && d >= 20 then 1 else 0)
              else if ch == TwentyBomb then (if d >= 20 then 1 else 0)
              else 0
  {
    var k, d, a, tw := OrZero(p.kills), OrZero(p.deaths), OrZero(p.assists), OrZero(p.towerDamage);
    CountRows(k == 0, a == 0, tw == 0, k == 0 && d >= 20, d >= 20, p, mid, ch);
  }

  /** The count of ch among the five loss rows, for any firing conditions. */
  lemma CountRows(b1: bool, b2: bool, b3: bool, b4: bool, b5: bool, p: Player, mid: Option<int>, ch: Challenge)
    ensures Count(When(b1, Fire(p, mid, Pacifist)) + When(b2, Fire(p, mid, SilentSupporter))
                  + When(b3, Fire(p, mid, SiegeBreaker)) + When(b4, Fire(p, mid, Tragic20))
                  + When(b5, Fire(p, mid, TwentyBomb)), ch) ==
              if ch == Pacifist then (if b1 then 1 else 0)
              else if ch == SilentSupporter then (if b2 then 1 else 0)
              else if ch == SiegeBreaker then (if b3 then 1 else 0)
              else if ch == Tragic20 then (if b4 then 1 else 0)
              else if ch == TwentyBomb then (if b5 then 1 else 0)
              else 0
  {
    var s1, s2, s3, s4, s5 := When(b1, Fire(p, mid, Pacifist)), When(b2, Fire(p, mid, SilentSupporter)),
      When(b3, Fire(p, mid, SiegeBreaker)), When(b4, Fire(p, mid, Tragic20)), When(b5, Fire(p, mid, TwentyBomb));
    CountFive(s1, s2, s3, s4, s5, ch);
    CountWhen(b1, Fire(p, mid, Pacifist), ch);
    CountWhen(b2, Fire(p, mid, SilentSupporter), ch);
    CountWhen(b3, Fire(p, mid, SiegeBreaker), ch);
    CountWhen(b4, Fire(p, mid, Tragic20), ch);
    CountWhen(b5, Fire(p, mid, TwentyBomb), ch);
  }

  /** Tragic 20 never fires alone: Pacifist and Twenty Bomb fire beside it,
      once each; and a winner gets no loss reward. */
  lemma TragicCoFires(p: Player, mid: Option<int>)
    ensures Won(p) ==> LossFor(p, mid) == []
    ensures Count(LossFor(p, mid), Tragic20) > 0 ==>
              Count(LossFor(p, mid), Pacifist) == 1 && Count(LossFor(p, mid), TwentyBomb) == 1
  {
    if !Won(p) {
      LossCount(p, mid, Tragic20);
      LossCount(p, mid, Pacifist);
      LossCount(p, mid, TwentyBomb);
    }
  }

  /** A player's loss rewards are worth between 0 and 85 points, and 85
      exactly for a loss with no kill, no assist, no tower damage and at
      least 20 deaths. */
  lemma LossForBounds(p: Player, mid: Option<int>)
    ensures 0 <= Sum(LossFor(p, mid)) <= 85
    ensures Sum(LossFor(p, mid)) == 85 <==>
              !Won(p) && OrZero(p.kills) == 0 && OrZero(p.assists) == 0 && OrZero(p.towerDamage) == 0 && OrZero(p.deaths) >= 20
  {
    if !Won(p) {
      var k, d, a, tw := OrZero(p.kills), OrZero(p.deaths), OrZero(p.assists), OrZero(p.towerDamage);
      var s1, s2, s3, s4, s5 := LossRows(p, mid);
      SumFive(s1, s2, s3, s4, s5);
      SumWhen(k == 0, Fire(p, mid, Pacifist));
      SumWhen(a == 0, Fire(p, mid, SilentSupporter));
      SumWhen(tw == 0, Fire(p, mid, SiegeBreaker));
      SumWhen(k == 0 && d >= 20, Fire(p, mid, Tragic20));
      SumWhen(d >= 20, Fire(p, mid, TwentyBomb));
    }
  }

  lemma {:induction false} SumAppend(a: seq<Tr>, b: seq<Tr>)
    ensures Sum(a + b) == Sum(a) + Sum(b)
    decreases |b|
  {
    if b == [] {
      assert a + b == a;
    } else {
      SumAppend(a, b[..|b| - 1]);
      assert (a + b)[..|a + b| - 1] == a + b[..|b| - 1];
    }
  }

  /** A scored match carries at most one Immortal Reverse, and carries one
      exactly when the last tracked player won without dying. */
  lemma ImmortalAtMostOnce(m: Match, tracked: set<int>)
    requires Check(m, tracked).Scored?
    ensures Count(Check(m, tracked).triggers, ImmortalReverse) <= 1
    ensures var fs := Friends(m.players, tracked);
            Count(Check(m, tracked).triggers, ImmortalReverse) == 1 <==>
              fs != [] && Won(fs[|fs| - 1]) && OrZero(fs[|fs| - 1].deaths) == 0
  {
    var fs := Friends(m.players, tracked);
    var mid := m.matchId;
    if fs != [] {
      var a, b, c, d, e := CheckParts(m, tracked);
      CountFive(a, b, c, d, e, ImmortalReverse);
      CountNone(a, ImmortalReverse);
      WetKind(m.players, tracked, mid);
      CountNone(c, ImmortalReverse);
      ThrowbackKind(m, fs, mid);
      CountNone(d, ImmortalReverse);
      var zk := ZeroKillers(Losers(m.players));
      DuoKind(zk, zk, mid);
      CountNone(e, ImmortalReverse);
      var p := fs[|fs| - 1];
      CountWhen(Won(p) && OrZero(p.deaths) == 0, Fire(p, mid, ImmortalReverse), ImmortalReverse);
    }
  }

  /** The Immortal Reverse of a scored match names the last tracked player. */
  lemma ImmortalNamesLast(m: Match, tracked: set<int>)
    requires Check(m, tracked).Scored?
    ensures var fs := Friends(m.players, tracked);
            Count(Check(m, tracked).triggers, ImmortalReverse) == 1 ==>
              fs != [] && Fire(fs[|fs| - 1], m.matchId, ImmortalReverse) in Check(m, tracked).triggers
  {
    ImmortalAtMostOnce(m, tracked);
    var fs := Friends(m.players, tracked);
    if fs != [] && Won(fs[|fs| - 1]) && OrZero(fs[|fs| - 1].deaths) == 0 {
      ImmortalFires(m, tracked, fs, fs[|fs| - 1]);
    }
  }

  lemma ImmortalFires(m: Match, tracked: set<int>, fs: seq<Player>, p: Player)
    requires Check(m, tracked).Scored?
    requires fs == Friends(m.players, tracked) && fs != [] && p == fs[|fs| - 1]
    requires Won(p) && OrZero(p.deaths) == 0
    ensures Fire(p, m.matchId, ImmortalReverse) in Check(m, tracked).triggers
  {
    var mid := m.matchId;
    var t := Fire(p, mid, ImmortalReverse);
    var tb := Throwback(m, fs, mid).value;
    var a, b, c, e := LossRules(fs, mid), Immortal(fs, mid), Wet(m.players, tracked, mid), Duo(m.players, mid);
    assert b == [t];
    var ts := Check(m, tracked).triggers;
    assert ts == a + b + c + tb + e;
    assert ts[|a|] == t;
  }

  /** The five parts of a scored match with a tracked player, in order. */
  lemma CheckParts(m: Match, tracked: set<int>) returns (a: seq<Tr>, b: seq<Tr>, c: seq<Tr>, d: seq<Tr>, e: seq<Tr>)
    requires Friends(m.players, tracked) != [] && Check(m, tracked).Scored?
    ensures var fs := Friends(m.players, tracked);
            && Throwback(m, fs, m.matchId).Some?
            && a == LossRules(fs, m.matchId) && b == Immortal(fs, m.matchId) && c == Wet(m.players, tracked, m.matchId)
            && d == Throwback(m, fs, m.matchId).value && e == Duo(m.players, m.matchId)
            && Check(m, tracked).triggers == a + b + c + d + e
  {
    var fs := Friends(m.players, tracked);
    var mid := m.matchId;
    a, b, c, d, e := LossRules(fs, mid), Immortal(fs, mid), Wet(m.players, tracked, mid), Throwback(m, fs, mid).value, Duo(m.players, mid);
  }

  lemma WetKind(ps: seq<Player>, tracked: set<int>, mid: Option<int>)
    ensures forall t :: t in Wet(ps, tracked, mid) ==> t.challenge == WetNoodle
  {
  }

  lemma ThrowbackKind(m: Match, fs: seq<Player>, mid: Option<int>)
    requires Throwback(m, fs, mid).Some?
    ensures forall t :: t in Throwback(m, fs, mid).value ==> t.challenge == ThrowbackThrow
  {
  }

  /** Wet Noodle goes to the tracked losers whose damage is the least on the
      losing side, every tie included, and to no one else. */
  lemma WetSpec(ps: seq<Player>, tracked: set<int>, mid: Option<int>)
    ensures forall t :: t in Wet(ps, tracked, mid) ==>
              exists p :: p in ps && !Won(p) && IsTracked(p, tracked) && t == Fire(p, mid, WetNoodle)
                        && forall q :: q in ps && !Won(q) ==> Damage(p) <= Damage(q)
    ensures forall p :: p in ps && !Won(p) && IsTracked(p, tracked) && (forall q :: q in ps && !Won(q) ==> Damage(p) <= Damage(q))
              ==> Fire(p, mid, WetNoodle) in Wet(ps, tracked, mid)
  {
    var ls := Losers(ps);
    if ls != [] {
      var low := Lowest(ls);
      forall p | p in ps && !Won(p) && IsTracked(p, tracked) && (forall q :: q in ps && !Won(q) ==> Damage(p) <= Damage(q))
        ensures Fire(p, mid, WetNoodle) in Wet(ps, tracked, mid)
      {
        var q :| q in ls && Damage(q) == low;
        assert Damage(p) == low;
      }
    }
  }

  /** Throwback Throw goes to every tracked loser whose enemy barracks read
      0 (an absent value reads 0), once the side of every tracked player is
      known. */
  lemma ThrowbackSpec(m: Match, tracked: set<int>, p: Player)
    requires forall q :: q in m.players && IsTracked(q, tracked) ==> q.playerSlot.Some?
    requires p in m.players && IsTracked(p, tracked)
    ensures Check(m, tracked).Scored?
    ensures !Won(p) && EnemyBarracks(m, p) == 0 ==> Fire(p, m.matchId, ThrowbackThrow) in Check(m, tracked).triggers
    ensures !Won(p) && EnemyBarracks(m, p) == 0 ==> Count(Check(m, tracked).triggers, ThrowbackThrow) >= 1
  {
    var fs := Friends(m.players, tracked);
    var mid := m.matchId;
    assert p in fs;
    if !Won(p) && EnemyBarracks(m, p) == 0 {
      var tb := Throwback(m, fs, mid).value;
      var t := Fire(p, mid, ThrowbackThrow);
      assert t in tb;
      var a, b, c, e := LossRules(fs, mid), Immortal(fs, mid), Wet(m.players, tracked, mid), Duo(m.players, mid);
      assert Check(m, tracked).triggers == a + b + c + tb + e;
      assert Check(m, tracked).triggers == (a + b + c) + tb + e;
      CountAppend(a + b + c + tb, e, ThrowbackThrow);
      CountAppend(a + b + c, tb, ThrowbackThrow);
      CountMember(tb, t);
    }
  }

  lemma {:induction false} CountMember(ts: seq<Tr>, t: Tr)
    requires t in ts
    ensures Count(ts, t.challenge) >= 1
    decreases |ts|
  {
    if ts[|ts| - 1] != t {
      assert ts == ts[..|ts| - 1] + [ts[|ts| - 1]];
      CountMember(ts[..|ts| - 1], t);
    }
  }

  /** Each entry x of `outer` is owed one award per entry of `zk` other than x. */
  lemma DuoShare(outer: seq<Option<int>>, zk: seq<Option<int>>, x: Option<int>, mid: Option<int>)
    ensures |For(DuoAll(outer, zk, mid), x)| == multiset(outer)[x] * (|zk| - multiset(zk)[x])
  {
    DuoShareBy(outer, zk, x, mid, |zk| - multiset(zk)[x]);
  }

  lemma {:induction false} DuoShareBy(outer: seq<Option<int>>, zk: seq<Option<int>>, x: Option<int>, mid: Option<int>, k: int)
    requires k == |zk| - multiset(zk)[x]
    ensures |For(DuoAll(outer, zk, mid), x)| == multiset(outer)[x] * k
    decreases |outer|
  {
    if outer != [] {
      var init, y := outer[..|outer| - 1], outer[|outer| - 1];
      DuoShareBy(init, zk, x, mid, k);
      var fa, fb := DuoStepCount(outer, zk, x, mid, k);
      assert outer == init + [y];
      assert multiset(outer)[x] == multiset(init)[x] + (if y == x then 1 else 0);
      ShareStep(fa, fb, multiset(init)[x], k, y == x, multiset(outer)[x]);
    }
  }

  /** The awards to x from the last entry of `outer` come on top of those from
      the entries before it. */
  lemma DuoStepCount(outer: seq<Option<int>>, zk: seq<Option<int>>, x: Option<int>, mid: Option<int>, k: int)
      returns (fa: int, fb: int)
    requires outer != [] && k == |zk| - multiset(zk)[x]
    ensures fa == |For(DuoAll(outer[..|outer| - 1], zk, mid), x)|
    ensures fb == if outer[|outer| - 1] == x then k else 0
    ensures |For(DuoAll(outer, zk, mid), x)| == fa + fb
  {
    var init, y := outer[..|outer| - 1], outer[|outer| - 1];
    var a, b := DuoAll(init, zk, mid), DuoFor(y, zk, mid);
    assert DuoAll(outer, zk, mid) == a + b;
    ForAppend(a, b, x);
    ForOwned(b, y, x);
    DuoForLength(y, zk, mid);
    fa, fb := |For(a, x)|, |For(b, x)|;
  }

  lemma ShareStep(fa: int, fb: int, n: int, k: int, owns: bool, total: int)
    requires fa == n * k && fb == (if owns then k else 0)
    requires total == n + (if owns then 1 else 0)
    ensures fa + fb == total * k
  {
  }

  lemma {:induction false} ForOwned(ts: seq<Tr>, owner: Option<int>, x: Option<int>)
    requires forall t :: t in ts ==> t.steamId == owner
    ensures For(ts, x) == if x == owner then ts else []
    decreases |ts|
  {
    if ts != [] {
      assert ts == ts[..|ts| - 1] + [ts[|ts| - 1]];
      ForOwned(ts[..|ts| - 1], owner, x);
    }
  }

  lemma {:induction false} DistinctOnce(s: seq<Option<int>>, x: Option<int>)
    requires forall i, j :: 0 <= i < j < |s| ==> s[i] != s[j]
    requires x in s
    ensures multiset(s)[x] == 1
    decreases |s|
  {
    var init := s[..|s| - 1];
    assert s == init + [s[|s| - 1]];
    if s[|s| - 1] == x {
      assert x !in init by {
        forall i | 0 <= i < |init| ensures init[i] != x {
          assert init[i] == s[i];
        }
      }
    } else {
      DistinctOnce(init, x);
    }
  }

  /** With distinct ids on the zero-kill losing side, each of its k players is
      owed k - 1 Double Disaster Duo awards, and fewer than two such players
      produce none. */
  lemma DuoSpec(ps: seq<Player>, mid: Option<int>)
    requires var zk := ZeroKillers(Losers(ps)); forall i, j :: 0 <= i < j < |zk| ==> zk[i] != zk[j]
    ensures var zk := ZeroKillers(Losers(ps));
            forall x :: x in zk ==> |For(Duo(ps, mid), x)| == |zk| - 1
    ensures |ZeroKillers(Losers(ps))| < 2 ==> Duo(ps, mid) == []
  {
    var zk := ZeroKillers(Losers(ps));
    forall x | x in zk ensures |For(Duo(ps, mid), x)| == |zk| - 1 {
      DistinctOnce(zk, x);
      DuoShareBy(zk, zk, x, mid, |zk| - 1);
    }
    if |zk| == 1 {
      DuoSingle(zk[0], mid);
      assert zk == [zk[0]];
    }
  }

  lemma DuoSingle(x: Option<int>, mid: Option<int>)
    ensures DuoAll([x], [x], mid) == []
  {
    assert [x][..0] == [];
    assert multiset([x])[x] == 1;
    DuoForLength(x, [x], mid);
  }

  // ---------------------------------------------------------------------
  // The check, step by step.

  /** The check: the loss rewards per tracked player (whose loop variables the
      winner's penalty reads afterwards), then the team rules. */
  method CheckChallenges(m: Match, tracked: set<int>) returns (r: Outcome)
    ensures r == Check(m, tracked)
  {
    var mid := m.matchId;
    var time := MatchTime(m);
    var fs := Friends(m.players, tracked);
    if fs == [] {
      return Scored([], time);
    }
    var ts, steamId, win, deaths := FriendLoop(fs, mid);
    if win && deaths == 0 {
      ts := ts + [Tr(steamId, mid, ImmortalReverse, -10)];
    }
    ghost var a, b := LossRules(fs, mid), Immortal(fs, mid);
    assert ts == a + b;
    var losers := Losers(m.players);
    if losers != [] {
      var lowest := Lowest(losers);
      ts := AppendWet(ts, losers, lowest, tracked, mid);
    }
    ghost var c := Wet(m.players, tracked, mid);
    assert ts == a + b + c;
    var ok;
    ts, ok := AppendThrowback(ts, m, fs, mid);
    if !ok {
      assert Throwback(m, fs, mid).None?;
      return SlotError;
    }
    ghost var d := Throwback(m, fs, mid).value;
    assert ts == a + b + c + d;
    var zeroKillers := ZeroKillers(losers);
    ts := AppendDuo(ts, zeroKillers, mid);
    assert ts == a + b + c + d + Duo(m.players, mid);
    r := Scored(ts, time);
  }

  /** The loop over the tracked players: their loss rows, and the loop
      variables as the last iteration leaves them (`last` is the player they
      were read from; the first iteration is peeled, as `fs` is nonempty). */
  method FriendLoop(fs: seq<Player>, mid: Option<int>) returns (ts: seq<Tr>, steamId: Option<int>, win: bool, deaths: int)
    requires fs != []
    ensures ts == LossRules(fs, mid)
    ensures var p := fs[|fs| - 1]; steamId == p.accountId && win == Won(p) && deaths == OrZero(p.deaths)
  {
    assert fs[..0] == [];
    ts := FriendStep([], fs, 0, mid);
    var last := fs[0];
    var i := 1;
    while i < |fs|
      invariant 1 <= i <= |fs|
      invariant ts == LossRules(fs[..i], mid)
      invariant last == fs[i - 1]
    {
      last := fs[i];
      ts := FriendStep(ts, fs, i, mid);
      i := i + 1;
    }
    assert fs[..|fs|] == fs;
    steamId, win, deaths := last.accountId, Won(last), OrZero(last.deaths);
  }

  /** One iteration of the loop over the tracked players. */
  method FriendStep(ts: seq<Tr>, fs: seq<Player>, i: nat, mid: Option<int>)
      returns (ts': seq<Tr>)
    requires i < |fs| && ts == LossRules(fs[..i], mid)
    ensures ts' == LossRules(fs[..i + 1], mid)
  {
    var p := fs[i];
    ts' := AppendLossRules(ts, p, mid);
    assert fs[..i + 1][..i] == fs[..i];
  }

  /** The five loss rows for one tracked player. */
  method AppendLossRules(ts: seq<Tr>, p: Player, mid: Option<int>) returns (ts': seq<Tr>)
    ensures ts' == ts + LossFor(p, mid)
  {
    ts' := ts;
    var kills, deaths, assists, towerDmg := OrZero(p.kills), OrZero(p.deaths), OrZero(p.assists), OrZero(p.towerDamage);
    if !Won(p) {
      ts' := AppendWhen(ts', kills == 0, Fire(p, mid, Pacifist));
      ts' := AppendWhen(ts', assists == 0, Fire(p, mid, SilentSupporter));
      ts' := AppendWhen(ts', towerDmg == 0, Fire(p, mid, SiegeBreaker));
      ts' := AppendWhen(ts', kills == 0 && deaths >= 20, Fire(p, mid, Tragic20));
      ts' := AppendWhen(ts', deaths >= 20, Fire(p, mid, TwentyBomb));
      Assoc5(ts, When(kills == 0, Fire(p, mid, Pacifist)), When(assists == 0, Fire(p, mid, SilentSupporter)),
        When(towerDmg == 0, Fire(p, mid, SiegeBreaker)), When(kills == 0 && deaths >= 20, Fire(p, mid, Tragic20)),
        When(deaths >= 20, Fire(p, mid, TwentyBomb)));
    }
  }

  /** Appends `t` when `cond` holds. */
  method AppendWhen(ts: seq<Tr>, cond: bool, t: Tr) returns (ts': seq<Tr>)
    ensures ts' == ts + When(cond, t)
  {
    ts' := ts;
    if cond {
      ts' := ts' + [t];
    }
  }

  lemma Assoc5(ts: seq<Tr>, a: seq<Tr>, b: seq<Tr>, c: seq<Tr>, d: seq<Tr>, e: seq<Tr>)
    ensures ts + a + b + c + d + e == ts + (a + b + c + d + e)
  {
    assert ts + a + b == ts + (a + b);
    assert ts + (a + b) + c == ts + (a + b + c);
    assert ts + (a + b + c) + d == ts + (a + b + c + d);
  }

  method AppendWet(ts: seq<Tr>, losers: seq<Player>, lowest: int, tracked: set<int>, mid: Option<int>) returns (ts': seq<Tr>)
    ensures ts' == ts + WetFrom(losers, lowest, tracked, mid)
  {
    ts' := ts;
    var i := 0;
    while i < |losers|
      invariant 0 <= i <= |losers|
      invariant ts' == ts + WetFrom(losers[..i], lowest, tracked, mid)
    {
      var p := losers[i];
      assert losers[..i + 1] == losers[..i] + [p];
      if p.accountId.Some? && p.accountId.value in tracked && Damage(p) == lowest {
        ts' := ts' + [Tr(p.accountId, mid, WetNoodle, 3)];
      }
      i := i + 1;
    }
    assert losers[..|losers|] == losers;
  }

  /** The side test fails on a tracked player without a slot: `ok` is false. */
  method AppendThrowback(ts: seq<Tr>, m: Match, fs: seq<Player>, mid: Option<int>) returns (ts': seq<Tr>, ok: bool)
    ensures ok <==> Throwback(m, fs, mid).Some?
    ensures ok ==> ts' == ts + Throwback(m, fs, mid).value
  {
    ts' := ts;
    var i := 0;
    while i < |fs|
      invariant 0 <= i <= |fs|
      invariant Throwback(m, fs[..i], mid).Some?
      invariant ts' == ts + Throwback(m, fs[..i], mid).value
    {
      var known;
      ts', known := ThrowbackStep(ts, ts', m, fs, i, mid);
      if !known {
        return ts', false;
      }
      i := i + 1;
    }
    assert fs[..|fs|] == fs;
    ok := true;
  }

  /** One tracked player of the side test: false when its slot is unknown. */
  method ThrowbackStep(ghost base: seq<Tr>, ts: seq<Tr>, m: Match, fs: seq<Player>, i: nat, mid: Option<int>)
      returns (ts': seq<Tr>, known: bool)
    requires i < |fs| && Throwback(m, fs[..i], mid).Some? && ts == base + Throwback(m, fs[..i], mid).value
    ensures !known ==> Throwback(m, fs, mid).None?
    ensures known ==> Throwback(m, fs[..i + 1], mid).Some? && ts' == base + Throwback(m, fs[..i + 1], mid).value
  {
    ts' := ts;
    var p := fs[i];
    assert fs[..i + 1] == fs[..i] + [p];
    if p.playerSlot.None? {
      assert p in fs;
      return ts', false;
    }
    var losing := !Won(p);
    if losing && EnemyBarracks(m, p) == 0 {
      ts' := ts' + [Tr(p.accountId, mid, ThrowbackThrow, 8)];
    }
    known := true;
  }

  /** The pair loop over the zero-kill losers. */
  method AppendDuo(ts: seq<Tr>, zk: seq<Option<int>>, mid: Option<int>) returns (ts': seq<Tr>)
    ensures ts' == ts + DuoAll(zk, zk, mid)
  {
    ts' := ts;
    var i := 0;
    while i < |zk|
      invariant 0 <= i <= |zk|
      invariant ts' == ts + DuoAll(zk[..i], zk, mid)
    {
      ts' := AppendDuoStep(ts, ts', zk, i, mid);
      i := i + 1;
    }
    assert zk[..|zk|] == zk;
  }

  /** One iteration of the outer loop of the pair rule. */
  method AppendDuoStep(ghost base: seq<Tr>, ts: seq<Tr>, zk: seq<Option<int>>, i: nat, mid: Option<int>) returns (ts': seq<Tr>)
    requires i < |zk| && ts == base + DuoAll(zk[..i], zk, mid)
    ensures ts' == base + DuoAll(zk[..i + 1], zk, mid)
  {
    var friendId := zk[i];
    ts' := AppendDuoRow(ts, friendId, zk, mid);
    assert zk[..i + 1][..i] == zk[..i];
    assert DuoAll(zk[..i + 1], zk, mid) == DuoAll(zk[..i], zk, mid) + DuoFor(friendId, zk, mid);
    assert ts' == base + (DuoAll(zk[..i], zk, mid) + DuoFor(friendId, zk, mid));
  }

  /** The inner loop of the pair rule, for one zero-kill loser. */
  method AppendDuoRow(ts: seq<Tr>, friendId: Option<int>, zk: seq<Option<int>>, mid: Option<int>) returns (ts': seq<Tr>)
    ensures ts' == ts + DuoFor(friendId, zk, mid)
  {
    ts' := ts;
    var j := 0;
    while j < |zk|
      invariant 0 <= j <= |zk|
      invariant ts' == ts + DuoFor(friendId, zk[..j], mid)
    {
      var otherId := zk[j];
      assert zk[..j + 1] == zk[..j] + [otherId];
      if otherId != friendId {
        ts' := ts' + [Tr(friendId, mid, DoubleDisasterDuo, 30)];
      }
      j := j + 1;
    }
    assert zk[..|zk|] == zk;
  }

  // ---------------------------------------------------------------------
  // The ledger of the draft.

  /** One history line: when (the match start time), which match, how many
      points, which challenge. */
  datatype HistoryItem = HistoryItem(date: int, matchId: int, points: int, challenge: Challenge)

  /** A leaderboard entry: the points and their history. */
  datatype Account = Account(points: int, history: seq<HistoryItem>)

  /** The store of the draft. Leaderboard and daily keys are the account id
      as text, so the anonymous `None` gets a key of its own. Days are
      UTC calendar days, counted from the epoch. */
  datatype DraftLedger = DraftLedger(
    checked: map<int, int>,
    leaderboard: map<Option<int>, Account>,
    daily: map<int, map<Option<int>, int>>,
    lastChecked: Option<int>)

  class DraftStore {
    var checked: map<int, int>
    var leaderboard: map<Option<int>, Account>
    var daily: map<int, map<Option<int>, int>>
    var lastChecked: Option<int>

    /** The store that loading falls back to. */
    constructor ()
      ensures State() == DraftLedger(map[], map[], map[], None)
    {
      checked, leaderboard, daily, lastChecked := map[], map[], map[], None;
    }

    function State(): DraftLedger
      reads this
    {
      DraftLedger(checked, leaderboard, daily, lastChecked)
    }
  }

  const SecondsPerDay := 86400

  function Day(time: int): int
  {
    time / SecondsPerDay
  }

  function AccountOf(lb: map<Option<int>, Account>, sid: Option<int>): Account
  {
    if sid in lb then lb[sid] else Account(0, [])
  }

  function DailyOf(daily: map<int, map<Option<int>, int>>, d: int, sid: Option<int>): int
  {
    if d in daily && sid in daily[d] then daily[d][sid] else 0
  }

  function HistorySum(h: seq<HistoryItem>): int
  {
    if h == [] then 0 else HistorySum(h[..|h| - 1]) + h[|h| - 1].points
  }

  /** The points of the history lines dated on day d. */
  function DaySum(h: seq<HistoryItem>, d: int): int
  {
    if h == [] then 0 else DaySum(h[..|h| - 1], d) + (if Day(h[|h| - 1].date) == d then h[|h| - 1].points else 0)
  }

  /** Crediting one trigger: the account (created empty when missing) gains
      the points and a history line, and the day's total for it grows by the
      same points. */
  function ApplyOne(l: DraftLedger, t: Tr, matchId: int, time: int): DraftLedger
  {
    var sid := t.steamId;
    var acc := AccountOf(l.leaderboard, sid);
    var d := Day(time);
    var today := if d in l.daily then l.daily[d] else map[];
    l.(leaderboard := l.leaderboard[sid := Account(acc.points + t.points, acc.history + [HistoryItem(time, matchId, t.points, t.challenge)])],
       daily := l.daily[d := today[sid := DailyOf(l.daily, d, sid) + t.points]])
  }

  function Apply(l: DraftLedger, ts: seq<Tr>, matchId: int, time: int): DraftLedger
  {
    if ts == [] then l else ApplyOne(Apply(l, ts[..|ts| - 1], matchId, time), ts[|ts| - 1], matchId, time)
  }

  /** Every account's points are the sum of its history, and every day's
      total of an account is the sum of its history lines of that day. */
  ghost predicate DraftOk(l: DraftLedger)
  {
    && (forall sid :: sid in l.leaderboard ==> l.leaderboard[sid].points == HistorySum(l.leaderboard[sid].history))
    && (forall d, sid :: DailyOf(l.daily, d, sid) == DaySum(AccountOf(l.leaderboard, sid).history, d))
  }

  lemma EmptyDraftOk()
    ensures DraftOk(DraftLedger(map[], map[], map[], None))
  {
  }

  lemma ApplyOneKeeps(l: DraftLedger, t: Tr, matchId: int, time: int)
    requires DraftOk(l)
    ensures DraftOk(ApplyOne(l, t, matchId, time))
  {
    var l' := ApplyOne(l, t, matchId, time);
    var sid := t.steamId;
    var h := AccountOf(l.leaderboard, sid).history;
    var item := HistoryItem(time, matchId, t.points, t.challenge);
    assert (h + [item])[..|h + [item]| - 1] == h;
    assert AccountOf(l'.leaderboard, sid) == Account(AccountOf(l.leaderboard, sid).points + t.points, h + [item]);
    forall s | s in l'.leaderboard ensures l'.leaderboard[s].points == HistorySum(l'.leaderboard[s].history) {
      if s != sid {
        assert l'.leaderboard[s] == l.leaderboard[s];
      }
    }
    forall d, s ensures DailyOf(l'.daily, d, s) == DaySum(AccountOf(l'.leaderboard, s).history, d) {
      assert DailyOf(l.daily, d, s) == DaySum(AccountOf(l.leaderboard, s).history, d);
      DailyStep(l, t, matchId, time, d, s);
    }
  }

  lemma DailyStep(l: DraftLedger, t: Tr, matchId: int, time: int, d: int, s: Option<int>)
    requires DailyOf(l.daily, d, s) == DaySum(AccountOf(l.leaderboard, s).history, d)
    ensures var l' := ApplyOne(l, t, matchId, time);
            DailyOf(l'.daily, d, s) == DaySum(AccountOf(l'.leaderboard, s).history, d)
  {
    var h := AccountOf(l.leaderboard, s).history;
    DailyOfApply(l, t, matchId, time, d, s);
    var item := HistoryItem(time, matchId, t.points, t.challenge);
    HistoryOfApply(l, t, matchId, time, s);
    if s == t.steamId {
      assert (h + [item])[..|h + [item]| - 1] == h;
    }
  }

  lemma HistoryOfApply(l: DraftLedger, t: Tr, matchId: int, time: int, s: Option<int>)
    ensures AccountOf(ApplyOne(l, t, matchId, time).leaderboard, s).history ==
              AccountOf(l.leaderboard, s).history + (if s == t.steamId then [HistoryItem(time, matchId, t.points, t.challenge)] else [])
  {
    if s != t.steamId {
      assert AccountOf(l.leaderboard, s).history + [] == AccountOf(l.leaderboard, s).history;
    }
  }

  lemma DailyOfApply(l: DraftLedger, t: Tr, matchId: int, time: int, d: int, s: Option<int>)
    ensures DailyOf(ApplyOne(l, t, matchId, time).daily, d, s) == DailyOf(l.daily, d, s) + (if d == Day(time) && s == t.steamId then t.points else 0)
  {
  }

  lemma {:induction false} ApplyKeeps(l: DraftLedger, ts: seq<Tr>, matchId: int, time: int)
    requires DraftOk(l)
    ensures DraftOk(Apply(l, ts, matchId, time))
    decreases |ts|
  {
    if ts != [] {
      ApplyKeeps(l, ts[..|ts| - 1], matchId, time);
      ApplyOneKeeps(Apply(l, ts[..|ts| - 1], matchId, time), ts[|ts| - 1], matchId, time);
    }
  }

  /** Applying a match's triggers adds to each account exactly the points of
      its own triggers, and leaves the checked map alone. */
  lemma {:induction false} ApplyCredits(l: DraftLedger, ts: seq<Tr>, matchId: int, time: int, x: Option<int>)
    ensures AccountOf(Apply(l, ts, matchId, time).leaderboard, x).points == AccountOf(l.leaderboard, x).points + Sum(For(ts, x))
    ensures |AccountOf(Apply(l, ts, matchId, time).leaderboard, x).history| == |AccountOf(l.leaderboard, x).history| + |For(ts, x)|
    ensures Apply(l, ts, matchId, time).checked == l.checked
    decreases |ts|
  {
    if ts != [] {
      var init := ts[..|ts| - 1];
      ApplyCredits(l, init, matchId, time, x);
      var t := ts[|ts| - 1];
      if t.steamId == x {
        assert For(ts, x) == For(init, x) + [t];
        assert Sum(For(ts, x)) == Sum(For(init, x)) + t.points;
      } else {
        assert For(ts, x) == For(init, x);
      }
    }
  }

  /** The draft's handling of one listed match: skip a checked id, skip a
      failed fetch, otherwise credit the triggers and record the id as
      checked with the match time. Every fetched match is assumed to give
      each tracked player a slot (see `SlotsKnown`). */
  function DraftStep(l: DraftLedger, id: int, fetched: Option<Match>, tracked: set<int>): DraftLedger
    requires fetched.Some? ==> SlotsKnown(fetched.value, tracked)
  {
    if id in l.checked then l
    else match fetched
      case None => l
      case Some(m) =>
        var ts := Check(m, tracked).triggers;
        var time := MatchTime(m);
        var l1 := Apply(l, ts, id, time);
        l1.(checked := l1.checked[id := time])
  }

  /** Every tracked player of the match has a slot, so the side test runs. */
  predicate SlotsKnown(m: Match, tracked: set<int>)
  {
    forall p :: p in m.players && IsTracked(p, tracked) ==> p.playerSlot.Some?
  }

  predicate SourceOk(source: map<int, Match>, tracked: set<int>)
  {
    forall id :: id in source ==> SlotsKnown(source[id], tracked)
  }

  /** A step records its id as checked (when the fetch succeeds) and keeps the
      invariant; a second step on the same id changes nothing. */
  lemma DraftStepSpec(l: DraftLedger, id: int, fetched: Option<Match>, tracked: set<int>)
    requires fetched.Some? ==> SlotsKnown(fetched.value, tracked)
    ensures var l' := DraftStep(l, id, fetched, tracked);
            && l.checked.Keys <= l'.checked.Keys
            && (fetched.Some? ==> id in l'.checked)
            && (DraftOk(l) ==> DraftOk(l'))
            && DraftStep(l', id, fetched, tracked) == l'
  {
    if id !in l.checked && fetched.Some? {
      var m := fetched.value;
      var ts := Check(m, tracked).triggers;
      ApplyCredits(l, ts, id, MatchTime(m), None);
      if DraftOk(l) {
        ApplyKeeps(l, ts, id, MatchTime(m));
      }
    }
  }

  // ---------------------------------------------------------------------
  // The anonymous duo recipient.

  /** A list whose every trigger names an account gives `None` nothing. */
  lemma {:induction false} ForNamed(ts: seq<Tr>)
    requires forall t :: t in ts ==> t.steamId.Some?
    ensures For(ts, None) == []
    decreases |ts|
  {
    if ts != [] {
      var init := ts[..|ts| - 1];
      assert forall t :: t in init ==> t in ts;
      assert ts[|ts| - 1] in ts;
      ForNamed(init);
    }
  }

  lemma {:induction false} LossRulesNamed(fs: seq<Player>, mid: Option<int>)
    requires forall p :: p in fs ==> p.accountId.Some?
    ensures forall t :: t in LossRules(fs, mid) ==> t.steamId.Some?
    decreases |fs|
  {
    if fs != [] {
      var init := fs[..|fs| - 1];
      assert forall p :: p in init ==> p in fs;
      assert fs[|fs| - 1] in fs;
      LossRulesNamed(init, mid);
    }
  }

  lemma WetNamed(ps: seq<Player>, tracked: set<int>, mid: Option<int>)
    ensures forall t :: t in Wet(ps, tracked, mid) ==> t.steamId.Some?
  {
  }

  lemma ThrowbackNamed(m: Match, fs: seq<Player>, mid: Option<int>)
    requires forall p :: p in fs ==> p.accountId.Some?
    requires Throwback(m, fs, mid).Some?
    ensures forall t :: t in Throwback(m, fs, mid).value ==> t.steamId.Some?
  {
  }

  /** Every trigger of a scored match except the duo awards names a tracked
      account. */
  lemma NamedPart(m: Match, tracked: set<int>) returns (named: seq<Tr>)
    requires Friends(m.players, tracked) != [] && Check(m, tracked).Scored?
    ensures Check(m, tracked).triggers == named + Duo(m.players, m.matchId)
    ensures forall t :: t in named ==> t.steamId.Some?
  {
    var fs := Friends(m.players, tracked);
    var a, b, c, d, e := CheckParts(m, tracked);
    LossRulesNamed(fs, m.matchId);
    assert fs[|fs| - 1] in fs;
    WetNamed(m.players, tracked, m.matchId);
    ThrowbackNamed(m, fs, m.matchId);
    named := a + b + c + d;
  }

  /** The duo awards owed to the anonymous key by the zero-kill list zk: one
      per pair of an anonymous entry and an entry with an account. */
  function AnonymousAwards(zk: seq<Option<int>>): int
  {
    multiset(zk)[None] * (|zk| - multiset(zk)[None])
  }

  lemma DuoAnonymous(ps: seq<Player>, mid: Option<int>)
    ensures |For(Duo(ps, mid), None)| == AnonymousAwards(ZeroKillers(Losers(ps)))
  {
    var zk := ZeroKillers(Losers(ps));
    var duo := DuoAll(zk, zk, mid);
    assert Duo(ps, mid) == duo;
    DuoShare(zk, zk, None, mid);
    assert |For(duo, None)| == multiset(zk)[None] * (|zk| - multiset(zk)[None]) == AnonymousAwards(zk);
  }

  /** Only the duo rule credits the anonymous key: for k zero-kill losers of
      whom n are anonymous, it is credited n * (k - n) times, and never in a
      match without a tracked player. */
  lemma AnonymousShare(m: Match, tracked: set<int>)
    requires SlotsKnown(m, tracked)
    ensures Friends(m.players, tracked) == [] ==> For(Check(m, tracked).triggers, None) == []
    ensures Friends(m.players, tracked) != [] ==>
              |For(Check(m, tracked).triggers, None)| == AnonymousAwards(ZeroKillers(Losers(m.players)))
  {
    var zk := ZeroKillers(Losers(m.players));
    if Friends(m.players, tracked) != [] {
      var named := NamedPart(m, tracked);
      var e := Duo(m.players, m.matchId);
      ForNamed(named);
      ForAppend(named, e, None);
      DuoAnonymous(m.players, m.matchId);
      assert For(Check(m, tracked).triggers, None) == For(e, None);
    } else {
      assert Check(m, tracked).triggers == [];
    }
  }

  lemma {:induction false} ProductPositive(n: nat, j: nat)
    ensures n * j > 0 <==> n > 0 && j > 0
    decreases n
  {
    if n > 0 {
      ProductPositive(n - 1, j);
      assert n * j == (n - 1) * j + j;
    }
  }

  /** The step as written. After crediting, the per-player messages read each
      recipient's key back as an integer to look up its name
      (python_challenge_checker.py:233-235); the key of an anonymous
      recipient is the text "None", which raises ValueError, so the run stops
      before the store is saved. A match without a tracked player stops it
      earlier, when the bare list of `CheckAsWritten` is unpacked (line 206).
      `None` stands for either failure. */
  function DraftStepAsWritten(l: DraftLedger, id: int, fetched: Option<Match>, tracked: set<int>): (r: Option<DraftLedger>)
    requires fetched.Some? ==> SlotsKnown(fetched.value, tracked)
    ensures r.Some? ==> r.value == DraftStep(l, id, fetched, tracked)
  {
    if id in l.checked then Some(l)
    else match fetched
      case None => Some(l)
      case Some(m) =>
        if Unpack(CheckAsWritten(m, tracked)).None? || For(Check(m, tracked).triggers, None) != [] then None
        else Some(DraftStep(l, id, fetched, tracked))
  }

  /** As written, a new match fails exactly when no player is tracked, or
      when the zero-kill losers include an anonymous player and someone who
      is not anonymous. */
  lemma StepAsWrittenFails(l: DraftLedger, id: int, m: Match, tracked: set<int>)
    requires SlotsKnown(m, tracked)
    ensures var zk := ZeroKillers(Losers(m.players)); var n := multiset(zk)[None];
            DraftStepAsWritten(l, id, Some(m), tracked).None? <==>
              id !in l.checked && (Friends(m.players, tracked) == [] || 0 < n < |zk|)
  {
    var zk := ZeroKillers(Losers(m.players));
    var n := multiset(zk)[None];
    var share := For(Check(m, tracked).triggers, None);
    var bare := Friends(m.players, tracked) == [];
    assert Unpack(CheckAsWritten(m, tracked)).None? <==> bare;
    assert DraftStepAsWritten(l, id, Some(m), tracked).None? <==> id !in l.checked && (bare || share != []);
    AnonymousShare(m, tracked);
    assert n <= |zk| by {
      assert multiset(zk)[None] <= |multiset(zk)|;
    }
    ProductPositive(n, |zk| - n);
    assert AnonymousAwards(zk) == n * (|zk| - n);
    assert share != [] <==> Friends(m.players, tracked) != [] && 0 < n < |zk|;
  }

  /** The corrected step on a new match records it and keeps a history line
      for every duo award to the anonymous key. */
  lemma StepCreditsAnonymous(l: DraftLedger, id: int, m: Match, tracked: set<int>)
    requires SlotsKnown(m, tracked) && id !in l.checked
    ensures var l' := DraftStep(l, id, Some(m), tracked);
            |AccountOf(l'.leaderboard, None).history| == |AccountOf(l.leaderboard, None).history| +
              (if Friends(m.players, tracked) == [] then 0 else AnonymousAwards(ZeroKillers(Losers(m.players))))
  {
    AnonymousShare(m, tracked);
    ApplyCredits(l, Check(m, tracked).triggers, id, MatchTime(m), None);
  }

  /** A match where a tracked player (id 7) and an anonymous player both lose
      without a kill. */
  function AnonymousDuoMatch(): Match
  {
    var f := Player(Some(7), Some(0), Some(0), Some(3), Some(2), Some(100), Some(50), Some(false), Some(1), None, None);
    var a := Player(None, Some(0), Some(0), Some(4), Some(1), Some(200), Some(60), Some(false), Some(130), None, None);
    Match(Some(99), Some(1000), Some(2000), Some(0), Some(0), [f, a])
  }

  lemma AnonymousDuoLosers()
    ensures ZeroKillers(Losers(AnonymousDuoMatch().players)) == [Some(7), None]
    ensures Friends(AnonymousDuoMatch().players, {7}) != []
    ensures SlotsKnown(AnonymousDuoMatch(), {7})
  {
    var ps := AnonymousDuoMatch().players;
    var f, a := ps[0], ps[1];
    assert ps == [f, a];
    assert ps[..1] == [f] && [f][..0] == [];
    assert !Won(f) && !Won(a);
    assert Losers([f]) == Losers([f][..0]) + [f];
    assert Losers(ps) == Losers(ps[..1]) + [a];
    assert ZeroKillers([f]) == ZeroKillers([f][..0]) + [Some(7)];
    assert ZeroKillers([f, a]) == ZeroKillers([f, a][..1]) + [None];
    assert f in Friends(ps, {7});
  }

  /** On that match, as written the run stops at the message for the
      anonymous key. */
  lemma AnonymousDuoStopsRun()
    ensures DraftStepAsWritten(DraftLedger(map[], map[], map[], None), 99, Some(AnonymousDuoMatch()), {7}).None?
  {
    AnonymousDuoLosers();
    var zk := ZeroKillers(Losers(AnonymousDuoMatch().players));
    assert multiset(zk)[None] == 1;
    StepAsWrittenFails(DraftLedger(map[], map[], map[], None), 99, AnonymousDuoMatch(), {7});
  }

  /** The corrected step on the same match records it as checked and gives
      the anonymous key one duo award. */
  lemma AnonymousDuoCredited()
    ensures var l' := DraftStep(DraftLedger(map[], map[], map[], None), 99, Some(AnonymousDuoMatch()), {7});
            99 in l'.checked && |AccountOf(l'.leaderboard, None).history| == 1
  {
    var m := AnonymousDuoMatch();
    var l := DraftLedger(map[], map[], map[], None);
    AnonymousDuoLosers();
    var zk := ZeroKillers(Losers(m.players));
    assert multiset(zk)[None] == 1;
    assert AnonymousAwards(zk) == 1;
    StepCreditsAnonymous(l, 99, m, {7});
    DraftStepSpec(l, 99, Some(m), {7});
  }

  /** One page of ids. */
  function DraftPage(l: DraftLedger, ids: seq<int>, source: map<int, Match>, tracked: set<int>): DraftLedger
    requires SourceOk(source, tracked)
  {
    if ids == [] then l
    else DraftStep(DraftPage(l, ids[..|ids| - 1], source, tracked), ids[|ids| - 1], Fetch(source, ids[|ids| - 1]), tracked)
  }

  /** The pages of one account from `offset` on, until the first empty page. */
  function DraftScanFrom(l: DraftLedger, raw: seq<Listed>, cutoff: int, batch: nat, offset: nat,
                         source: map<int, Match>, tracked: set<int>): DraftLedger
    requires batch > 0 && SourceOk(source, tracked)
    decreases |raw| - offset
  {
    var ids := Page(raw, batch, offset, cutoff);
    if ids == [] then l
    else
      PageSpec(raw, batch, offset, cutoff);
      DraftScanFrom(DraftPage(l, ids, source, tracked), raw, cutoff, batch, offset + batch, source, tracked)
  }

  function HistoryFor(histories: map<int, seq<Listed>>, friend: int): seq<Listed>
  {
    if friend in histories then histories[friend] else []
  }

  function DraftScanAll(l: DraftLedger, friends: seq<int>, histories: map<int, seq<Listed>>, cutoff: int, batch: nat,
                        source: map<int, Match>, tracked: set<int>): DraftLedger
    requires batch > 0 && SourceOk(source, tracked)
  {
    if friends == [] then l
    else
      var f := friends[|friends| - 1];
      DraftScanFrom(DraftScanAll(l, friends[..|friends| - 1], histories, cutoff, batch, source, tracked),
                    HistoryFor(histories, f), cutoff, batch, 0, source, tracked)
  }

  /** The set of the tracked account ids of the list. */
  function Tracked(friends: seq<int>): set<int>
  {
    set x | x in friends
  }

  /** The draft's run: the scan over its account list, then the run time. */
  function DraftRun(l: DraftLedger, friends: seq<int>, histories: map<int, seq<Listed>>, cutoff: int, batch: nat,
                    source: map<int, Match>, now: int): DraftLedger
    requires batch > 0 && SourceOk(source, Tracked(friends))
  {
    DraftScanAll(l, friends, histories, cutoff, batch, source, Tracked(friends)).(lastChecked := Some(now))
  }

  /** Steps that keep the invariant and never forget a checked id. */
  ghost predicate Keeps(l: DraftLedger, l': DraftLedger)
  {
    l.checked.Keys <= l'.checked.Keys && (DraftOk(l) ==> DraftOk(l'))
  }

  lemma {:induction false} DraftPageKeeps(l: DraftLedger, ids: seq<int>, source: map<int, Match>, tracked: set<int>)
    requires SourceOk(source, tracked)
    ensures Keeps(l, DraftPage(l, ids, source, tracked))
    ensures forall id :: id in ids && id in source ==> id in DraftPage(l, ids, source, tracked).checked
    decreases |ids|
  {
    if ids != [] {
      var init := ids[..|ids| - 1];
      DraftPageKeeps(l, init, source, tracked);
      var id := ids[|ids| - 1];
      DraftStepSpec(DraftPage(l, init, source, tracked), id, Fetch(source, id), tracked);
      assert ids == init + [id];
    }
  }

  lemma {:induction false} DraftScanFromKeeps(l: DraftLedger, raw: seq<Listed>, cutoff: int, batch: nat, offset: nat,
                                              source: map<int, Match>, tracked: set<int>)
    requires batch > 0 && SourceOk(source, tracked)
    ensures Keeps(l, DraftScanFrom(l, raw, cutoff, batch, offset, source, tracked))
    decreases |raw| - offset
  {
    var ids := Page(raw, batch, offset, cutoff);
    if ids != [] {
      DraftPageKeeps(l, ids, source, tracked);
      DraftScanFromKeeps(DraftPage(l, ids, source, tracked), raw, cutoff, batch, offset + batch, source, tracked);
    }
  }

  lemma {:induction false} DraftScanAllKeeps(l: DraftLedger, friends: seq<int>, histories: map<int, seq<Listed>>, cutoff: int,
                                             batch: nat, source: map<int, Match>, tracked: set<int>)
    requires batch > 0 && SourceOk(source, tracked)
    ensures Keeps(l, DraftScanAll(l, friends, histories, cutoff, batch, source, tracked))
    decreases |friends|
  {
    if friends != [] {
      var init := friends[..|friends| - 1];
      DraftScanAllKeeps(l, init, histories, cutoff, batch, source, tracked);
      var f := friends[|friends| - 1];
      DraftScanFromKeeps(DraftScanAll(l, init, histories, cutoff, batch, source, tracked), HistoryFor(histories, f),
                         cutoff, batch, 0, source, tracked);
    }
  }

  /** The run keeps points equal to the history sums and the daily totals in
      step with the history, forgets no checked id, and stamps the run time. */
  lemma DraftRunKeeps(l: DraftLedger, friends: seq<int>, histories: map<int, seq<Listed>>, cutoff: int, batch: nat,
                      source: map<int, Match>, now: int)
    requires batch > 0 && SourceOk(source, Tracked(friends))
    ensures var l' := DraftRun(l, friends, histories, cutoff, batch, source, now);
            && l.checked.Keys <= l'.checked.Keys
            && (DraftOk(l) ==> DraftOk(l'))
            && l'.lastChecked == Some(now)
  {
    DraftScanAllKeeps(l, friends, histories, cutoff, batch, source, Tracked(friends));
  }

  // ---------------------------------------------------------------------
  // The draft's run, step by step.

  /** Credits the triggers of a match one by one. */
  method ApplyTriggers(store: DraftStore, ts: seq<Tr>, matchId: int, time: int)
    modifies store
    ensures store.State() == Apply(old(store.State()), ts, matchId, time)
  {
    var i := 0;
    while i < |ts|
      invariant 0 <= i <= |ts|
      invariant store.State() == Apply(old(store.State()), ts[..i], matchId, time)
    {
      assert ts[..i + 1][..i] == ts[..i];
      ApplyTrigger(store, ts[i], matchId, time);
      i := i + 1;
    }
    assert ts[..|ts|] == ts;
  }

  /** Credits one trigger: the account entry and the day's entry are created
      at zero when missing, then both grow by the points. */
  method ApplyTrigger(store: DraftStore, t: Tr, matchId: int, time: int)
    modifies store
    ensures store.State() == ApplyOne(old(store.State()), t, matchId, time)
  {
    CreditAccount(store, t, matchId, time);
    CreditDay(store, t, time);
  }

  /** The account part of crediting one trigger. */
  method CreditAccount(store: DraftStore, t: Tr, matchId: int, time: int)
    modifies store
    ensures store.leaderboard == ApplyOne(old(store.State()), t, matchId, time).leaderboard
    ensures store.checked == old(store.checked) && store.daily == old(store.daily) && store.lastChecked == old(store.lastChecked)
  {
    ghost var l := store.State();
    var sid := t.steamId;
    if sid !in store.leaderboard {
      store.leaderboard := store.leaderboard[sid := Account(0, [])];
    }
    var acc := store.leaderboard[sid];
    assert acc == AccountOf(l.leaderboard, sid);
    store.leaderboard := store.leaderboard[sid := Account(acc.points + t.points,
                                                           acc.history + [HistoryItem(time, matchId, t.points, t.challenge)])];
  }

  /** The day part of crediting one trigger. */
  method CreditDay(store: DraftStore, t: Tr, time: int)
    modifies store
    ensures store.daily == ApplyOne(old(store.State()), t, 0, time).daily
    ensures store.checked == old(store.checked) && store.leaderboard == old(store.leaderboard)
    ensures store.lastChecked == old(store.lastChecked)
  {
    ghost var l := store.State();
    var sid := t.steamId;
    var d := Day(time);
    if d !in store.daily {
      store.daily := store.daily[d := map[]];
    }
    if sid !in store.daily[d] {
      store.daily := store.daily[d := store.daily[d][sid := 0]];
    }
    ghost var today := if d in l.daily then l.daily[d] else map[];
    assert store.daily[d][sid] == DailyOf(l.daily, d, sid);
    assert store.daily[d][sid := store.daily[d][sid] + t.points] == today[sid := DailyOf(l.daily, d, sid) + t.points];
    store.daily := store.daily[d := store.daily[d][sid := store.daily[d][sid] + t.points]];
  }

  /** One listed id: skip it when checked or not fetched, otherwise credit it
      and record it as checked. */
  method DraftProcess(store: DraftStore, id: int, fetched: Option<Match>, tracked: set<int>)
    requires fetched.Some? ==> SlotsKnown(fetched.value, tracked)
    modifies store
    ensures store.State() == DraftStep(old(store.State()), id, fetched, tracked)
  {
    if id in store.checked {
      return;
    }
    if fetched.None? {
      return;
    }
    var r := CheckChallenges(fetched.value, tracked);
    var ts, time := r.triggers, r.time;
    ApplyTriggers(store, ts, id, time);
    store.checked := store.checked[id := time];
  }

  method DraftProcessPage(store: DraftStore, ids: seq<int>, source: map<int, Match>, tracked: set<int>)
    requires SourceOk(source, tracked)
    modifies store
    ensures store.State() == DraftPage(old(store.State()), ids, source, tracked)
  {
    var k := 0;
    while k < |ids|
      invariant 0 <= k <= |ids|
      invariant store.State() == DraftPage(old(store.State()), ids[..k], source, tracked)
    {
      assert ids[..k + 1][..k] == ids[..k];
      DraftProcess(store, ids[k], Fetch(source, ids[k]), tracked);
      k := k + 1;
    }
    assert ids[..|ids|] == ids;
  }

  /** The pages of one account, offset growing by the batch size. */
  method DraftScanPlayer(store: DraftStore, raw: seq<Listed>, cutoff: int, batch: nat, source: map<int, Match>, tracked: set<int>)
    requires batch > 0 && SourceOk(source, tracked)
    modifies store
    ensures store.State() == DraftScanFrom(old(store.State()), raw, cutoff, batch, 0, source, tracked)
  {
    var offset: nat := 0;
    ghost var goal := DraftScanFrom(store.State(), raw, cutoff, batch, 0, source, tracked);
    while true
      invariant DraftScanFrom(store.State(), raw, cutoff, batch, offset, source, tracked) == goal
      decreases |raw| - offset
    {
      var more, next := DraftScanPage(store, raw, cutoff, batch, offset, source, tracked);
      if !more {
        break;
      }
      offset := next;
    }
  }

  /** One page of the scan: process it and report whether it was non-empty.
      The remaining scan is the same from either side of the page. */
  method DraftScanPage(store: DraftStore, raw: seq<Listed>, cutoff: int, batch: nat, offset: nat,
                       source: map<int, Match>, tracked: set<int>) returns (more: bool, next: nat)
    requires batch > 0 && SourceOk(source, tracked)
    modifies store
    ensures next == offset + batch
    ensures more <==> Page(raw, batch, offset, cutoff) != []
    ensures more ==> offset < |raw|
    ensures !more ==> store.State() == DraftScanFrom(old(store.State()), raw, cutoff, batch, offset, source, tracked)
    ensures more ==> DraftScanFrom(store.State(), raw, cutoff, batch, next, source, tracked)
                     == DraftScanFrom(old(store.State()), raw, cutoff, batch, offset, source, tracked)
  {
    next := offset + batch;
    var ids := Page(raw, batch, offset, cutoff);
    if ids == [] {
      DraftScanFromEnd(store.State(), raw, cutoff, batch, offset, source, tracked);
      return false, next;
    }
    PageSpec(raw, batch, offset, cutoff);
    DraftScanFromStep(store.State(), raw, cutoff, batch, offset, source, tracked);
    DraftProcessPage(store, ids, source, tracked);
    return true, next;
  }

  lemma DraftScanFromStep(l: DraftLedger, raw: seq<Listed>, cutoff: int, batch: nat, offset: nat,
                          source: map<int, Match>, tracked: set<int>)
    requires batch > 0 && SourceOk(source, tracked) && Page(raw, batch, offset, cutoff) != []
    ensures DraftScanFrom(l, raw, cutoff, batch, offset, source, tracked)
            == DraftScanFrom(DraftPage(l, Page(raw, batch, offset, cutoff), source, tracked), raw, cutoff, batch, offset + batch, source, tracked)
  {
  }

  lemma DraftScanFromEnd(l: DraftLedger, raw: seq<Listed>, cutoff: int, batch: nat, offset: nat,
                         source: map<int, Match>, tracked: set<int>)
    requires batch > 0 && SourceOk(source, tracked) && Page(raw, batch, offset, cutoff) == []
    ensures DraftScanFrom(l, raw, cutoff, batch, offset, source, tracked) == l
  {
  }

  /** The draft's run over its account list, in list order. */
  method DraftRunCheck(store: DraftStore, friends: seq<int>, histories: map<int, seq<Listed>>, cutoff: int, batch: nat,
                       source: map<int, Match>, now: int)
    requires batch > 0 && SourceOk(source, Tracked(friends))
    modifies store
    ensures store.State() == DraftRun(old(store.State()), friends, histories, cutoff, batch, source, now)
  {
    var tracked := Tracked(friends);
    ghost var start := store.State();
    var i := 0;
    while i < |friends|
      invariant 0 <= i <= |friends|
      invariant store.State() == DraftScanAll(start, friends[..i], histories, cutoff, batch, source, tracked)
    {
      DraftRunStep(store, start, friends, i, histories, cutoff, batch, source, tracked);
      i := i + 1;
    }
    assert friends[..|friends|] == friends;
    store.lastChecked := Some(now);
  }

  /** One account of the run. */
  method DraftRunStep(store: DraftStore, ghost start: DraftLedger, friends: seq<int>, i: nat, histories: map<int, seq<Listed>>,
                      cutoff: int, batch: nat, source: map<int, Match>, tracked: set<int>)
    requires i < |friends| && batch > 0 && SourceOk(source, tracked)
    requires store.State() == DraftScanAll(start, friends[..i], histories, cutoff, batch, source, tracked)
    modifies store
    ensures store.State() == DraftScanAll(start, friends[..i + 1], histories, cutoff, batch, source, tracked)
  {
    assert friends[..i + 1][..i] == friends[..i];
    DraftScanPlayer(store, HistoryFor(histories, friends[i]), cutoff, batch, source, tracked);
  }
}
