/** The persisted store of the pipeline: checked matches, the retry queue of
    unparsed matches, the leaderboard (streak state, running totals and
    per-match summaries) and the challenge log, with the invariants the
    pipeline keeps on it. */
module Store {
  import opened MatchData
  import opened Triggers

  /** A player's streak state: the result of the last match (unset at first)
      and the two run lengths. Absent keys read as unset and 0. */
  datatype Streak = Streak(lastWin: Option<bool>, winStreak: nat, loseStreak: nat)

  const NoStreak: Streak := Streak(None, 0, 0)

  /** The name-and-points pair kept in a match summary. */
  datatype ChallengeEntry = ChallengeEntry(challenge: Challenge, points: int)

  /** A player's summary of one match. `date` is the match start time. */
  datatype MatchRecord = MatchRecord(
    date: int,
    hero: string,
    kda: Kda,
    win: bool,
    totalInMatch: int,
    friendsInMatch: seq<string>,
    challenges: seq<ChallengeEntry>)

  /** The keys the per-match pipeline keeps for a player: name, running total
      and the per-match summaries. `order` lists the keys of `matches` in the
      order they were first written, as the stored dictionary keeps them. */
  datatype Profile = Profile(name: string, totalPoints: int, order: seq<int>, matches: map<int, MatchRecord>)

  /** A leaderboard entry. `profile` is `None` while the entry holds only the
      streak keys, as the rule engine creates it. */
  datatype Entry = Entry(streak: Streak, profile: Option<Profile>)

  /** A checked match: when it started, its duration, and the account ids of
      all its players (tracked or not, anonymous ones as `None`). */
  datatype Checked = Checked(checkedAt: int, duration: int, friends: seq<Option<int>>)

  /** A deferred match: when it was deferred, the friend expected in it, and
      how often it has been deferred. */
  datatype Unparsed = Unparsed(firstSeen: int, expectedFriend: Option<int>, retries: nat)

  /** A trigger as written to the challenge log, with the match timestamp. */
  datatype LogEntry = LogEntry(trigger: Trigger, timestamp: int)

  /** The value of the whole store. */
  datatype Ledger = Ledger(
    checked: map<int, Checked>,
    unparsed: map<int, Unparsed>,
    leaderboard: map<int, Entry>,
    challengeLog: map<int, seq<LogEntry>>)

  const EmptyLedger: Ledger := Ledger(map[], map[], map[], map[])

  /** The store, held in memory for one run and mutated in place. The keys of
      every map are the match or account ids (the file keeps them as text). */
  class Store {
    var checked: map<int, Checked>
    var unparsed: map<int, Unparsed>
    var leaderboard: map<int, Entry>
    var challengeLog: map<int, seq<LogEntry>>

    /** The empty store that loading falls back to. */
    constructor ()
      ensures State() == EmptyLedger
    {
      checked, unparsed, leaderboard, challengeLog := map[], map[], map[], map[];
    }

    function State(): Ledger
      reads this
    {
      Ledger(checked, unparsed, leaderboard, challengeLog)
    }
  }

  /** At most one run length is nonzero, and the recorded last result agrees
      with the nonzero one. */
  predicate StreakOk(s: Streak)
  {
    && (s.lastWin == None ==> s.winStreak == 0 && s.loseStreak == 0)
    && (s.lastWin == Some(true) ==> s.winStreak >= 1 && s.loseStreak == 0)
    && (s.lastWin == Some(false) ==> s.loseStreak >= 1 && s.winStreak == 0)
  }

  /** The sum of the points of a challenge list. */
  function EntriesSum(cs: seq<ChallengeEntry>): int
  {
    if cs == [] then 0 else EntriesSum(cs[..|cs| - 1]) + cs[|cs| - 1].points
  }

  lemma {:induction false} EntriesSumAppend(a: seq<ChallengeEntry>, b: seq<ChallengeEntry>)
    ensures EntriesSum(a + b) == EntriesSum(a) + EntriesSum(b)
    decreases |b|
  {
    if b == [] {
      assert a + b == a;
    } else {
      EntriesSumAppend(a, b[..|b| - 1]);
      assert (a + b)[..|a + b| - 1] == a + b[..|b| - 1];
    }
  }

  /** A match summary's subtotal is the sum of its challenge points. */
  predicate RecordOk(r: MatchRecord)
  {
    r.totalInMatch == EntriesSum(r.challenges)
  }

  /** The subtotal of the summary under key k (0 when there is none). */
  function Subtotal(ms: map<int, MatchRecord>, k: int): int
  {
    if k in ms then ms[k].totalInMatch else 0
  }

  /** The sum of the subtotals of the summaries listed by `order`. */
  function SumAlong(order: seq<int>, ms: map<int, MatchRecord>): int
  {
    if order == [] then 0 else SumAlong(order[..|order| - 1], ms) + Subtotal(ms, order[|order| - 1])
  }

  predicate Distinct(order: seq<int>)
  {
    forall i, j :: 0 <= i < j < |order| ==> order[i] != order[j]
  }

  /** The sum along keys that do not include k ignores the summary under k. */
  lemma {:induction false} SumAlongFrame(order: seq<int>, ms: map<int, MatchRecord>, k: int, r: MatchRecord)
    requires k !in order
    ensures SumAlong(order, ms[k := r]) == SumAlong(order, ms)
    decreases |order|
  {
    if order != [] {
      assert order[..|order| - 1] <= order;
      SumAlongFrame(order[..|order| - 1], ms, k, r);
    }
  }

  /** Replacing the summary under a key listed exactly once changes the sum by
      the change of that subtotal; adding it under a fresh key at the end adds
      its subtotal. */
  lemma {:induction false} SumAlongReplace(order: seq<int>, ms: map<int, MatchRecord>, k: int, r: MatchRecord)
    requires Distinct(order) && k in order
    ensures SumAlong(order, ms[k := r]) == SumAlong(order, ms) - Subtotal(ms, k) + r.totalInMatch
    decreases |order|
  {
    var init := order[..|order| - 1];
    assert Distinct(init);
    if order[|order| - 1] == k {
      assert k !in init by {
        forall i | 0 <= i < |init| ensures init[i] != k {
          assert init[i] == order[i];
        }
      }
      SumAlongFrame(init, ms, k, r);
    } else {
      assert k in init by {
        var i :| 0 <= i < |order| && order[i] == k;
        assert init[i] == k;
      }
      SumAlongReplace(init, ms, k, r);
    }
  }

  lemma SumAlongAppend(order: seq<int>, ms: map<int, MatchRecord>, k: int, r: MatchRecord)
    requires k !in order
    ensures SumAlong(order + [k], ms[k := r]) == SumAlong(order, ms) + r.totalInMatch
  {
    assert (order + [k])[..|order + [k]| - 1] == order;
    SumAlongFrame(order, ms, k, r);
  }

  /** Point conservation for one player: the running total is the sum of the
      per-match subtotals, and each subtotal is the sum of its challenges. */
  ghost predicate ProfileOk(p: Profile)
  {
    && Distinct(p.order)
    && (forall k :: k in p.matches <==> k in p.order)
    && p.totalPoints == SumAlong(p.order, p.matches)
    && (forall k :: k in p.matches ==> RecordOk(p.matches[k]))
  }

  ghost predicate EntryOk(e: Entry)
  {
    StreakOk(e.streak) && (e.profile.Some? ==> ProfileOk(e.profile.value))
  }

  /** The invariant of the leaderboard. */
  ghost predicate LeaderboardOk(lb: map<int, Entry>)
  {
    forall sid :: sid in lb ==> EntryOk(lb[sid])
  }

  /** The invariant of the store is that of its leaderboard. */
  ghost predicate LedgerOk(l: Ledger)
  {
    LeaderboardOk(l.leaderboard)
  }
}
