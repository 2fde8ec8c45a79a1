/** The readiness gate: decides whether a fetched match record holds enough
    data to be scored, or names what is still missing. Pure; the record is
    never changed. */
module Validation {
  import opened MatchData

  /** The match-level keys the gate insists on, in the order it checks them. */
  datatype MatchField = MatchIdField | DurationField | BarracksRadiantField | BarracksDireField

  /** The per-player keys the gate insists on for tracked players, in order. */
  datatype StatField = KillsField | DeathsField | AssistsField | WinField | TowerDamageField | HeroIdField

  datatype Reason =
    | WaitingForMatchField(field: MatchField)
    | PlayerDataIncomplete
    | PrivacyEnabled(friendName: string)
    | WaitingForPlayerField(playerName: string, stat: StatField)

  /** `(True, None)` is `Parsed`; `(False, reason)` is `Deferred(reason)`. */
  datatype Verdict = Parsed | Deferred(reason: Reason)

  function MatchFieldKey(f: MatchField): string
  {
    match f
    case MatchIdField => "match_id"
    case DurationField => "duration"
    case BarracksRadiantField => "barracks_status_radiant"
    case BarracksDireField => "barracks_status_dire"
  }

  function StatKey(f: StatField): string
  {
    match f
    case KillsField => "kills"
    case DeathsField => "deaths"
    case AssistsField => "assists"
    case WinField => "win"
    case TowerDamageField => "tower_damage"
    case HeroIdField => "hero_id"
  }

  /** The text the gate reports for a reason. */
  function Message(r: Reason): string
  {
    match r
    case WaitingForMatchField(f) => "Waiting for OpenDota to parse " + MatchFieldKey(f)
    case PlayerDataIncomplete => "Player data incomplete"
    case PrivacyEnabled(name) => name + " has privacy enabled (Data missing)"
    case WaitingForPlayerField(name, f) => "Waiting for parse: " + name + " " + StatKey(f) + " is null"
  }

  predicate HasStat(p: Player, f: StatField)
  {
    match f
    case KillsField => p.kills.Some?
    case DeathsField => p.deaths.Some?
    case AssistsField => p.assists.Some?
    case WinField => p.win.Some?
    case TowerDamageField => p.towerDamage.Some?
    case HeroIdField => p.heroId.Some?
  }

  /** The stats the rule engine reads are all present. */
  predicate HasAllStats(p: Player)
  {
    p.kills.Some? && p.deaths.Some? && p.assists.Some? && p.win.Some? && p.towerDamage.Some? && p.heroId.Some?
  }

  /** The first missing stat of a player, in the gate's order. */
  function MissingStat(p: Player): (r: Option<StatField>)
    ensures r.None? <==> HasAllStats(p)
    ensures r.Some? ==> !HasStat(p, r.value)
  {
    if p.kills.None? then Some(KillsField)
    else if p.deaths.None? then Some(DeathsField)
    else if p.assists.None? then Some(AssistsField)
    else if p.win.None? then Some(WinField)
    else if p.towerDamage.None? then Some(TowerDamageField)
    else if p.heroId.None? then Some(HeroIdField)
    else None
  }

  /** The per-friend loop: the first tracked player with a missing stat. */
  function CheckFriends(fs: seq<Player>, roster: map<int, string>): (v: Verdict)
    requires forall p :: p in fs ==> IsTracked(p, roster.Keys)
    ensures v.Parsed? <==> forall p :: p in fs ==> HasAllStats(p)
    ensures v.Deferred? ==> v.reason.WaitingForPlayerField?
  {
    if fs == [] then Parsed
    else
      var p := fs[0];
      assert p in fs;
      assert IsTracked(p, roster.Keys);
      assert p.accountId.value in roster;
      match MissingStat(p)
      case Some(f) => Deferred(WaitingForPlayerField(roster[AccountOf(p)], f))
      case None =>
        assert forall q :: q in fs ==> q == p || q in fs[1..];
        CheckFriends(fs[1..], roster)
  }

  /** `expected_friend_id` is truthy: given and not 0. */
  predicate Truthy(expected: Option<int>)
  {
    expected.Some? && expected.value != 0
  }

  /** The display name of a possibly untracked account: its roster name, or its id. */
  function DisplayName(roster: map<int, string>, id: int): string
  {
    if id in roster then roster[id] else IntToString(id)
  }

  /** An independent statement of when a match may be scored: every
      match-level key present, at least ten players, the expected friend (if
      any) visible among the tracked players, and every tracked player with all
      the stats the rule engine reads. */
  predicate ReadyForScoring(m: Match, roster: map<int, string>, expected: Option<int>)
  {
    && m.matchId.Some? && m.duration.Some? && m.barracksRadiant.Some? && m.barracksDire.Some?
    && |m.players| >= 10
    && (Truthy(expected) ==> exists p :: p in m.players && p.accountId == expected && IsTracked(p, roster.Keys))
    && (forall p :: p in m.players && IsTracked(p, roster.Keys) ==> HasAllStats(p))
  }

  /** `is_match_fully_parsed`. */
  function IsMatchFullyParsed(m: Match, roster: map<int, string>, expected: Option<int>): (v: Verdict)
    ensures v.Parsed? <==> ReadyForScoring(m, roster, expected)
    ensures m.matchId.None? ==> v == Deferred(WaitingForMatchField(MatchIdField))
    ensures m.matchId.Some? && m.duration.None? ==> v == Deferred(WaitingForMatchField(DurationField))
    ensures m.matchId.Some? && m.duration.Some? && m.barracksRadiant.None? ==>
              v == Deferred(WaitingForMatchField(BarracksRadiantField))
    ensures m.matchId.Some? && m.duration.Some? && m.barracksRadiant.Some? && m.barracksDire.None? ==>
              v == Deferred(WaitingForMatchField(BarracksDireField))
    ensures m.matchId.Some? && m.duration.Some? && m.barracksRadiant.Some? && m.barracksDire.Some? && |m.players| < 10 ==>
              v == Deferred(PlayerDataIncomplete)
  {
    if m.matchId.None? then Deferred(WaitingForMatchField(MatchIdField))
    else if m.duration.None? then Deferred(WaitingForMatchField(DurationField))
    else if m.barracksRadiant.None? then Deferred(WaitingForMatchField(BarracksRadiantField))
    else if m.barracksDire.None? then Deferred(WaitingForMatchField(BarracksDireField))
    else if |m.players| < 10 then Deferred(PlayerDataIncomplete)
    else
      var friends := Friends(m.players, roster.Keys);
      if Truthy(expected) && expected !in AccountIds(friends) then
        assert forall p :: p in friends ==> p.accountId != expected by {
          forall p | p in friends ensures p.accountId != expected {
            var i :| 0 <= i < |friends| && friends[i] == p;
          }
        }
        Deferred(PrivacyEnabled(DisplayName(roster, expected.value)))
      else if friends == [] then
        Parsed
      else
        assert Truthy(expected) ==>
          exists p :: p in m.players && p.accountId == expected && IsTracked(p, roster.Keys) by {
          if Truthy(expected) {
            var i :| 0 <= i < |friends| && AccountIds(friends)[i] == expected;
            assert friends[i] in friends;
          }
        }
        CheckFriends(friends, roster)
  }

  /** A match with at least ten players, all match-level keys, no tracked player
      and no expected friend is ready without any per-player check. */
  lemma NoFriendsShortcut(m: Match, roster: map<int, string>, expected: Option<int>)
    requires m.matchId.Some? && m.duration.Some? && m.barracksRadiant.Some? && m.barracksDire.Some?
    requires |m.players| >= 10
    requires forall p :: p in m.players ==> !IsTracked(p, roster.Keys)
    requires !Truthy(expected)
    ensures IsMatchFullyParsed(m, roster, expected) == Parsed
  {
  }

  /** The privacy check comes before the no-friends shortcut: an expected
      friend absent from the tracked players defers the match, naming that
      friend, even when no tracked player is present at all. */
  lemma PrivacyBeforeShortcut(m: Match, roster: map<int, string>, e: int)
    requires m.matchId.Some? && m.duration.Some? && m.barracksRadiant.Some? && m.barracksDire.Some?
    requires |m.players| >= 10
    requires e != 0
    requires forall p :: p in m.players && IsTracked(p, roster.Keys) ==> p.accountId != Some(e)
    ensures IsMatchFullyParsed(m, roster, Some(e)) == Deferred(PrivacyEnabled(DisplayName(roster, e)))
  {
    var friends := Friends(m.players, roster.Keys);
    forall i | 0 <= i < |friends| ensures AccountIds(friends)[i] != Some(e) {
      assert friends[i] in friends;
    }
  }

  /** A tracked player with a missing stat always defers the match. */
  lemma MissingStatDefers(m: Match, roster: map<int, string>, expected: Option<int>, p: Player)
    requires p in m.players && IsTracked(p, roster.Keys)
    requires !HasAllStats(p)
    ensures IsMatchFullyParsed(m, roster, expected).Deferred?
  {
  }

  /** Two player records agree on every key the gate reads. */
  predicate SameGateKeys(p: Player, q: Player)
  {
    q.accountId == p.accountId && q.kills == p.kills && q.deaths == p.deaths && q.assists == p.assists
    && q.win == p.win && q.towerDamage == p.towerDamage && q.heroId == p.heroId
  }

  /** Two match records agree on every key the gate reads. */
  predicate SameGateView(m: Match, m': Match)
  {
    && m'.matchId == m.matchId && m'.duration == m.duration
    && m'.barracksRadiant == m.barracksRadiant && m'.barracksDire == m.barracksDire
    && |m'.players| == |m.players|
    && forall i :: 0 <= i < |m.players| ==> SameGateKeys(m.players[i], m'.players[i])
  }

  lemma ReadyTransfers(m: Match, m': Match, roster: map<int, string>, expected: Option<int>)
    requires SameGateView(m, m')
    requires ReadyForScoring(m, roster, expected)
    ensures ReadyForScoring(m', roster, expected)
  {
    if Truthy(expected) {
      var p :| p in m.players && p.accountId == expected && IsTracked(p, roster.Keys);
      var i :| 0 <= i < |m.players| && m.players[i] == p;
      assert SameGateKeys(m.players[i], m'.players[i]);
      assert m'.players[i] in m'.players;
    }
    forall q | q in m'.players && IsTracked(q, roster.Keys) ensures HasAllStats(q) {
      var i :| 0 <= i < |m'.players| && m'.players[i] == q;
      assert SameGateKeys(m.players[i], m'.players[i]);
      assert m.players[i] in m.players;
    }
  }

  /** party_size, multi_kills, player_slot and every other key outside the two
      required lists never influence whether a match is ready. */
  lemma {:induction false} UncheckedFieldsIgnored(m: Match, m': Match, roster: map<int, string>, expected: Option<int>)
    requires SameGateView(m, m')
    ensures IsMatchFullyParsed(m, roster, expected).Parsed? == IsMatchFullyParsed(m', roster, expected).Parsed?
  {
    assert SameGateView(m', m) by {
      forall i | 0 <= i < |m'.players| ensures SameGateKeys(m'.players[i], m.players[i]) {
        assert SameGateKeys(m.players[i], m'.players[i]);
      }
    }
    if ReadyForScoring(m, roster, expected) { ReadyTransfers(m, m', roster, expected); }
    if ReadyForScoring(m', roster, expected) { ReadyTransfers(m', m, roster, expected); }
  }
}
