/** Match records as the match-history service delivers them, the static
    configuration (roster and hero table) and the paged match-history source.
    Every stage of the pipeline reads these; none of them changes them. */
module MatchData {

  datatype Option<+T> = None | Some(value: T)

  /** One entry of a match's player list. `None` stands for a key that is
      absent from the record, except for `accountId`, where it stands for an
      anonymous account (the service sends null). `multiKills` is `None` when
      the histogram is absent or is not a dictionary; its keys are streak
      lengths, so key 5 counts rampages. */
  datatype Player = Player(
    accountId: Option<int>,
    heroId: Option<int>,
    kills: Option<int>,
    deaths: Option<int>,
    assists: Option<int>,
    heroDamage: Option<int>,
    towerDamage: Option<int>,
    win: Option<bool>,
    playerSlot: Option<int>,
    partySize: Option<int>,
    multiKills: Option<map<int, int>>)

  /** A match record. An absent player list is the empty sequence. */
  datatype Match = Match(
    matchId: Option<int>,
    startTime: Option<int>,
    duration: Option<int>,
    barracksRadiant: Option<int>,
    barracksDire: Option<int>,
    players: seq<Player>)

  /** The static configuration: tracked account id to display name, and the
      hero table loaded from disk (hero id to localized name). */
  datatype Config = Config(roster: map<int, string>, heroes: map<int, string>)

  /** An integer field read with 0 standing in for an absent value. */
  function OrZero(x: Option<int>): int
  {
    if x.Some? then x.value else 0
  }

  /** The player's side won; an absent flag reads as a loss. */
  predicate Won(p: Player)
  {
    p.win == Some(true)
  }

  /** The account id of a tracked player (0 for an anonymous one, which is never tracked). */
  function AccountOf(p: Player): int
  {
    OrZero(p.accountId)
  }

  predicate IsTracked(p: Player, roster: set<int>)
  {
    p.accountId.Some? && p.accountId.value in roster
  }

  /** The players of the list whose account id is on the roster, in list order. */
  function Friends(ps: seq<Player>, roster: set<int>): (fs: seq<Player>)
    ensures |fs| <= |ps|
    ensures forall p :: p in fs <==> p in ps && IsTracked(p, roster)
  {
    if ps == [] then []
    else
      assert ps == ps[..|ps| - 1] + [ps[|ps| - 1]];
      Friends(ps[..|ps| - 1], roster) + (if IsTracked(ps[|ps| - 1], roster) then [ps[|ps| - 1]] else [])
  }

  /** A list without a tracked player has no friends. */
  lemma {:induction false} FriendsNone(ps: seq<Player>, roster: set<int>)
    requires forall p :: p in ps ==> !IsTracked(p, roster)
    ensures Friends(ps, roster) == []
    decreases |ps|
  {
    if ps != [] {
      assert ps[|ps| - 1] in ps;
      assert forall p :: p in ps[..|ps| - 1] ==> p in ps;
      FriendsNone(ps[..|ps| - 1], roster);
    }
  }

  /** The account ids of a list of players, in order. */
  function AccountIds(ps: seq<Player>): (ids: seq<Option<int>>)
    ensures |ids| == |ps|
    ensures forall i :: 0 <= i < |ps| ==> ids[i] == ps[i].accountId
  {
    if ps == [] then [] else AccountIds(ps[..|ps| - 1]) + [ps[|ps| - 1].accountId]
  }

  /** The match start time; an absent one is the epoch. */
  function MatchTime(m: Match): int
  {
    OrZero(m.startTime)
  }

  /** A slot below 128 is the Radiant side (an absent slot reads as 0). */
  predicate IsRadiant(p: Player)
  {
    OrZero(p.playerSlot) < 128
  }

  /** The opponent's barracks status as seen from player p: the Dire value for a
      Radiant player, the Radiant value otherwise; an absent value reads as 0. */
  function EnemyBarracks(m: Match, p: Player): int
  {
    OrZero(if IsRadiant(p) then m.barracksDire else m.barracksRadiant)
  }

  function Digit(d: nat): char
    requires d < 10
  {
    "0123456789"[d]
  }

  /** Decimal text of a natural number. */
  function NatToString(n: nat): (s: string)
    ensures |s| >= 1
    decreases n
  {
    if n < 10 then [Digit(n)] else NatToString(n / 10) + [Digit(n % 10)]
  }

  /** The decimal text of an integer, with a leading minus sign when negative. */
  function IntToString(i: int): string
  {
    if i < 0 then "-" + NatToString(-i) else NatToString(i)
  }

  /** `get_hero_name`: the localized name from the hero table, or "Hero <id>"
      when the table has none ("Hero None" for an absent id). */
  function HeroName(heroes: map<int, string>, id: Option<int>): (name: string)
    ensures id.Some? && id.value in heroes ==> name == heroes[id.value]
    ensures id.Some? && id.value !in heroes ==> name == "Hero " + IntToString(id.value)
  {
    match id
    case Some(h) => if h in heroes then heroes[h] else "Hero " + IntToString(h)
    case None => "Hero None"
  }

  /** One entry of a player's match history as the source lists it. */
  datatype Listed = Listed(matchId: int, startTime: int)

  /** The ids, in order, of the entries `lo` up to (not including) `hi` of a
      history that started at or after the cutoff. */
  function Window(raw: seq<Listed>, cutoff: int, lo: nat, hi: nat): seq<int>
    requires lo <= hi <= |raw|
    decreases hi - lo
  {
    if lo == hi then []
    else (if raw[lo].startTime >= cutoff then [raw[lo].matchId] else []) + Window(raw, cutoff, lo + 1, hi)
  }

  /** An id is in the window exactly when an entry of the window with that id
      started at or after the cutoff; the window is never longer than its range. */
  lemma {:induction false} WindowMembers(raw: seq<Listed>, cutoff: int, lo: nat, hi: nat)
    requires lo <= hi <= |raw|
    ensures |Window(raw, cutoff, lo, hi)| <= hi - lo
    ensures forall id :: id in Window(raw, cutoff, lo, hi) <==>
              exists j :: lo <= j < hi && raw[j].matchId == id && raw[j].startTime >= cutoff
    decreases hi - lo
  {
    if lo < hi {
      var w := Window(raw, cutoff, lo, hi);
      var head := if raw[lo].startTime >= cutoff then [raw[lo].matchId] else [];
      var rest := Window(raw, cutoff, lo + 1, hi);
      assert w == head + rest;
      WindowMembers(raw, cutoff, lo + 1, hi);
      forall id
        ensures id in w <==> exists j :: lo <= j < hi && raw[j].matchId == id && raw[j].startTime >= cutoff
      {
        if id in w {
          if id in head {
            assert raw[lo].matchId == id && raw[lo].startTime >= cutoff;
          } else {
            assert id in rest;
            var j :| lo + 1 <= j < hi && raw[j].matchId == id && raw[j].startTime >= cutoff;
          }
        }
        if exists j :: lo <= j < hi && raw[j].matchId == id && raw[j].startTime >= cutoff {
          var j :| lo <= j < hi && raw[j].matchId == id && raw[j].startTime >= cutoff;
          if j == lo {
            assert id in head;
          } else {
            assert id in rest;
          }
        }
      }
    }
  }

  /** `fetch_recent_match_ids`: the window of `limit` entries at `offset` of the
      player's history, keeping the ids of matches from the cutoff on. A window
      past the end of the history is empty. */
  function Page(raw: seq<Listed>, limit: nat, offset: nat, cutoff: int): seq<int>
  {
    if offset >= |raw| then []
    else Window(raw, cutoff, offset, if offset + limit <= |raw| then offset + limit else |raw|)
  }

  /** A page holds at most `limit` ids, a non-empty page starts inside the
      history, and an id is on the page exactly when an entry of the window
      with that id started at or after the cutoff. */
  lemma PageSpec(raw: seq<Listed>, limit: nat, offset: nat, cutoff: int)
    ensures |Page(raw, limit, offset, cutoff)| <= limit
    ensures Page(raw, limit, offset, cutoff) != [] ==> offset < |raw|
    ensures forall id :: id in Page(raw, limit, offset, cutoff) <==>
              exists j :: offset <= j < offset + limit && j < |raw| && raw[j].matchId == id && raw[j].startTime >= cutoff
  {
    if offset < |raw| {
      WindowMembers(raw, cutoff, offset, if offset + limit <= |raw| then offset + limit else |raw|);
    }
  }

  /** `fetch_full_match`: the record the source holds for an id, or nothing. */
  function Fetch(source: map<int, Match>, id: int): Option<Match>
  {
    if id in source then Some(source[id]) else None
  }
}
