/** Triggers: the named, signed point events the rule engine emits, and the
    selections over trigger lists that the ledger and the lemmas use. */
module Triggers {
  import opened MatchData

  /** The challenges of the rule engine, one constructor per trigger name. */
  datatype Challenge =
    | FiveStackWin
    | Rampage(count: int)
    | FiveWinStreak
    | WinStreakExtended
    | QuickWin
    | HighKillGame
    | WinVsFullEnemyMegas
    | WinWithoutAllBarracks
    | FiveStackLoss
    | LowTowerDamage
    | ZeroKillGame
    | FiveLossStreak
    | LossStreakExtended
    | LostVsMegas
    | TwentyDeaths
    | QuickLoss

  /** The trigger name as stored and displayed. */
  function Title(c: Challenge): string
  {
    match c
    case FiveStackWin => "5-Stack Doom Win"
    case Rampage(r) => "Rampage x" + IntToString(r)
    case FiveWinStreak => "5 Win Streak"
    case WinStreakExtended => "Win Streak Extended"
    case QuickWin => "Win <25m"
    case HighKillGame => "15+ Kill Game"
    case WinVsFullEnemyMegas => "Win vs Full Enemy Megas"
    case WinWithoutAllBarracks => "Win without Taking All Barracks"
    case FiveStackLoss => "5-Stack Doom Loss"
    case LowTowerDamage => "Low Tower Damage"
    case ZeroKillGame => "0 Kill Game"
    case FiveLossStreak => "5 Loss Streak"
    case LossStreakExtended => "Loss Streak Extended"
    case LostVsMegas => "Lost vs Megas"
    case TwentyDeaths => "20+ Deaths"
    case QuickLoss => "Loss <25m"
  }

  /** The "K/D/A" display triple, with absent counts read as 0. */
  datatype Kda = Kda(kills: int, deaths: int, assists: int)

  /** One fired rule: the player, the match, the display fields and the points. */
  datatype Trigger = Trigger(steamId: int, matchId: Option<int>, hero: string, kda: Kda, challenge: Challenge, points: int)

  /** The points of the triggers of challenge c, in order. */
  function Select(ts: seq<Trigger>, c: Challenge): seq<int>
  {
    if ts == [] then []
    else Select(ts[..|ts| - 1], c) + (if ts[|ts| - 1].challenge == c then [ts[|ts| - 1].points] else [])
  }

  lemma {:induction false} SelectAppend(a: seq<Trigger>, b: seq<Trigger>, c: Challenge)
    ensures Select(a + b, c) == Select(a, c) + Select(b, c)
    decreases |b|
  {
    if b == [] {
      assert a + b == a;
    } else {
      SelectAppend(a, b[..|b| - 1], c);
      assert (a + b)[..|a + b| - 1] == a + b[..|b| - 1];
    }
  }

  /** The triggers of one player, in order. */
  function Share(ts: seq<Trigger>, sid: int): (r: seq<Trigger>)
    ensures |r| <= |ts|
  {
    if ts == [] then []
    else
      Share(ts[..|ts| - 1], sid) + (if ts[|ts| - 1].steamId == sid then [ts[|ts| - 1]] else [])
  }

  lemma {:induction false} ShareAppend(a: seq<Trigger>, b: seq<Trigger>, sid: int)
    ensures Share(a + b, sid) == Share(a, sid) + Share(b, sid)
    decreases |b|
  {
    if b == [] {
      assert a + b == a;
    } else {
      ShareAppend(a, b[..|b| - 1], sid);
      assert (a + b)[..|a + b| - 1] == a + b[..|b| - 1];
    }
  }

  /** A list whose triggers all belong to one player is that player's whole share. */
  lemma {:induction false} ShareOwned(ts: seq<Trigger>, owner: int, sid: int)
    requires forall t :: t in ts ==> t.steamId == owner
    ensures Share(ts, sid) == if sid == owner then ts else []
    decreases |ts|
  {
    if ts != [] {
      assert ts == ts[..|ts| - 1] + [ts[|ts| - 1]];
      ShareOwned(ts[..|ts| - 1], owner, sid);
    }
  }

  /** The sum of the points of a trigger list. */
  function Total(ts: seq<Trigger>): int
  {
    if ts == [] then 0 else Total(ts[..|ts| - 1]) + ts[|ts| - 1].points
  }
}
