/** The run loop: drain the retry queue, then page through every roster
    member's recent history, processing each match at most once per run; the
    top-three summary; and the single-match test entry point. */
module RunLoop {
  import opened MatchData
  import opened Triggers
  import opened Store
  import opened Processor

  /** The expected-friend hint stored with a queued match. */
  function HintOf(u: map<int, Unparsed>, id: int): Option<int>
  {
    if id in u then u[id].expectedFriend else None
  }

  /** One call of the per-match pipeline inside the run: the id joins the
      run's handled set exactly when the call reports success. */
  function Handle(l: Ledger, processed: set<int>, id: int, hint: Option<int>, source: map<int, Match>,
                  cfg: Config, now: int): (Ledger, set<int>)
  {
    var (l', ok) := Process(l, id, processed, Fetch(source, id), hint, cfg, now);
    (l', if ok then processed + {id} else processed)
  }

  /** The retry pass over the snapshot of queued ids, each with its stored hint. */
  function Retry(l: Ledger, processed: set<int>, keys: seq<int>, source: map<int, Match>, cfg: Config, now: int): (Ledger, set<int>)
  {
    if keys == [] then (l, processed)
    else
      var (l1, p1) := Retry(l, processed, keys[..|keys| - 1], source, cfg, now);
      var id := keys[|keys| - 1];
      Handle(l1, p1, id, HintOf(l1.unparsed, id), source, cfg, now)
  }

  /** One page of a roster member's history: ids already handled in this run
      are skipped, the others processed with that member as the hint. */
  function PageStep(l: Ledger, processed: set<int>, ids: seq<int>, friend: int, source: map<int, Match>,
                    cfg: Config, now: int): (Ledger, set<int>)
  {
    if ids == [] then (l, processed)
    else
      var (l1, p1) := PageStep(l, processed, ids[..|ids| - 1], friend, source, cfg, now);
      var id := ids[|ids| - 1];
      if id in p1 then (l1, p1) else Handle(l1, p1, id, Some(friend), source, cfg, now)
  }

  /** The pages of one roster member from `offset` on, until the first empty page. */
  function ScanFrom(l: Ledger, processed: set<int>, friend: int, raw: seq<Listed>, cutoff: int, batch: nat,
                    offset: nat, source: map<int, Match>, cfg: Config, now: int): (Ledger, set<int>)
    requires batch > 0
    decreases |raw| - offset
  {
    var ids := Page(raw, batch, offset, cutoff);
    if ids == [] then (l, processed)
    else
      var (l1, p1) := PageStep(l, processed, ids, friend, source, cfg, now);
      PageSpec(raw, batch, offset, cutoff);
      ScanFrom(l1, p1, friend, raw, cutoff, batch, offset + batch, source, cfg, now)
  }

  /** The history of a roster member (empty when the source lists none). */
  function HistoryOf(histories: map<int, seq<Listed>>, friend: int): seq<Listed>
  {
    if friend in histories then histories[friend] else []
  }

  /** The scan over the roster, in roster order, each member from offset 0. */
  function ScanAll(l: Ledger, processed: set<int>, friends: seq<int>, histories: map<int, seq<Listed>>, cutoff: int,
                   batch: nat, source: map<int, Match>, cfg: Config, now: int): (Ledger, set<int>)
    requires batch > 0
  {
    if friends == [] then (l, processed)
    else
      var (l1, p1) := ScanAll(l, processed, friends[..|friends| - 1], histories, cutoff, batch, source, cfg, now);
      var f := friends[|friends| - 1];
      ScanFrom(l1, p1, f, HistoryOf(histories, f), cutoff, batch, 0, source, cfg, now)
  }

  /** `run_check` as a value: the retry pass first, then the scan, starting
      from an empty handled set. */
  function Run(l: Ledger, keys: seq<int>, friends: seq<int>, histories: map<int, seq<Listed>>, cutoff: int,
               batch: nat, source: map<int, Match>, cfg: Config, now: int): (Ledger, set<int>)
    requires batch > 0
  {
    var (l1, p1) := Retry(l, {}, keys, source, cfg, now);
    ScanAll(l1, p1, friends, histories, cutoff, batch, source, cfg, now)
  }

  /** `keys` lists the keys of a map once each, in some order. */
  ghost predicate Enumerates<V>(keys: seq<int>, m: map<int, V>)
  {
    (forall i, j :: 0 <= i < j < |keys| ==> keys[i] != keys[j]) && (forall k :: k in keys <==> k in m)
  }

  lemma EnumeratedIn<V>(keys: seq<int>, m: map<int, V>)
    requires Enumerates(keys, m)
    ensures forall j :: 0 <= j < |keys| ==> keys[j] in m
  {
    forall j | 0 <= j < |keys| ensures keys[j] in m {
      assert keys[j] in keys;
    }
  }

  /** The retry pass: iterate the snapshot of the queued ids taken before any
      processing, reading each one's stored hint from the live store. */
  method RetryUnparsed(store: Store, keys: seq<int>, source: map<int, Match>, cfg: Config, now: int)
    returns (processed: set<int>)
    requires Enumerates(keys, store.unparsed)
    modifies store
    ensures (store.State(), processed) == Retry(old(store.State()), {}, keys, source, cfg, now)
  {
    processed := {};
    EnumeratedIn(keys, store.unparsed);
    var i := 0;
    while i < |keys|
      invariant 0 <= i <= |keys|
      invariant (store.State(), processed) == Retry(old(store.State()), {}, keys[..i], source, cfg, now)
      invariant forall j :: i <= j < |keys| ==> keys[j] in store.unparsed
    {
      var id := keys[i];
      assert keys[..i + 1][..i] == keys[..i];
      var hint := store.unparsed[id].expectedFriend;
      ghost var l0 := store.State();
      var ok := ProcessMatch(id, store, processed, hint, Fetch(source, id), cfg, now);
      forall j | i < j < |keys| ensures keys[j] in store.unparsed {
        ProcessUnparsedFrame(l0, id, processed, Fetch(source, id), hint, cfg, now, keys[j]);
      }
      if ok {
        processed := processed + {id};
      }
      i := i + 1;
    }
    assert keys[..|keys|] == keys;
  }

  /** The pages of one roster member: offset 0, then one batch further per
      page, until the first empty page. */
  method ScanPlayer(store: Store, processed: set<int>, friend: int, raw: seq<Listed>, cutoff: int, batch: nat,
                    source: map<int, Match>, cfg: Config, now: int) returns (processed': set<int>)
    requires batch > 0
    modifies store
    ensures (store.State(), processed') == ScanFrom(old(store.State()), processed, friend, raw, cutoff, batch, 0, source, cfg, now)
  {
    processed' := processed;
    var offset: nat := 0;
    ghost var goal := ScanFrom(store.State(), processed, friend, raw, cutoff, batch, 0, source, cfg, now);
    while true
      invariant ScanFrom(store.State(), processed', friend, raw, cutoff, batch, offset, source, cfg, now) == goal
      decreases |raw| - offset
    {
      var more, next;
      more, next, processed' := ScanPage(store, processed', friend, raw, cutoff, batch, offset, source, cfg, now);
      if !more {
        break;
      }
      offset := next;
    }
  }

  /** One page of the scan: process it and report whether it was non-empty.
      The rest of the scan is the same from either side of the page. */
  method ScanPage(store: Store, processed: set<int>, friend: int, raw: seq<Listed>, cutoff: int, batch: nat,
                  offset: nat, source: map<int, Match>, cfg: Config, now: int)
    returns (more: bool, next: nat, processed': set<int>)
    requires batch > 0
    modifies store
    ensures next == offset + batch
    ensures more ==> offset < |raw|
    ensures !more ==> (store.State(), processed')
                      == ScanFrom(old(store.State()), processed, friend, raw, cutoff, batch, offset, source, cfg, now)
    ensures more ==> ScanFrom(store.State(), processed', friend, raw, cutoff, batch, next, source, cfg, now)
                     == ScanFrom(old(store.State()), processed, friend, raw, cutoff, batch, offset, source, cfg, now)
  {
    next := offset + batch;
    var ids := Page(raw, batch, offset, cutoff);
    if ids == [] {
      return false, next, processed;
    }
    PageSpec(raw, batch, offset, cutoff);
    ScanFromStep(store.State(), processed, friend, raw, cutoff, batch, offset, source, cfg, now);
    processed' := ProcessPage(store, processed, ids, friend, source, cfg, now);
    more := true;
  }

  lemma ScanFromStep(l: Ledger, processed: set<int>, friend: int, raw: seq<Listed>, cutoff: int, batch: nat,
                     offset: nat, source: map<int, Match>, cfg: Config, now: int)
    requires batch > 0 && Page(raw, batch, offset, cutoff) != []
    ensures var r := PageStep(l, processed, Page(raw, batch, offset, cutoff), friend, source, cfg, now);
            ScanFrom(l, processed, friend, raw, cutoff, batch, offset, source, cfg, now)
            == ScanFrom(r.0, r.1, friend, raw, cutoff, batch, offset + batch, source, cfg, now)
  {
  }

  /** One page: skip the ids handled in this run, process the others. */
  method ProcessPage(store: Store, processed: set<int>, ids: seq<int>, friend: int, source: map<int, Match>,
                     cfg: Config, now: int) returns (processed': set<int>)
    modifies store
    ensures (store.State(), processed') == PageStep(old(store.State()), processed, ids, friend, source, cfg, now)
  {
    processed' := processed;
    var k := 0;
    while k < |ids|
      invariant 0 <= k <= |ids|
      invariant (store.State(), processed') == PageStep(old(store.State()), processed, ids[..k], friend, source, cfg, now)
    {
      var id := ids[k];
      assert ids[..k + 1][..k] == ids[..k];
      if id !in processed' {
        var ok := ProcessMatch(id, store, processed', Some(friend), Fetch(source, id), cfg, now);
        if ok {
          processed' := processed' + {id};
        }
      }
      k := k + 1;
    }
    assert ids[..|ids|] == ids;
  }

  /** `run_check`: the retry pass, then the scan over the roster (given as its
      iteration order); the store is left as `Run` says, and the handled set
      of the run is returned. */
  method RunCheck(store: Store, keys: seq<int>, friends: seq<int>, histories: map<int, seq<Listed>>, cutoff: int,
                  batch: nat, source: map<int, Match>, cfg: Config, now: int) returns (processed: set<int>)
    requires batch > 0
    requires Enumerates(keys, store.unparsed)
    requires Enumerates(friends, cfg.roster)
    modifies store
    ensures (store.State(), processed) == Run(old(store.State()), keys, friends, histories, cutoff, batch, source, cfg, now)
  {
    processed := RetryUnparsed(store, keys, source, cfg, now);
    ghost var l1 := store.State();
    ghost var p1 := processed;
    var i := 0;
    while i < |friends|
      invariant 0 <= i <= |friends|
      invariant (store.State(), processed) == ScanAll(l1, p1, friends[..i], histories, cutoff, batch, source, cfg, now)
    {
      assert friends[..i + 1][..i] == friends[..i];
      processed := ScanPlayer(store, processed, friends[i], HistoryOf(histories, friends[i]), cutoff, batch, source, cfg, now);
      i := i + 1;
    }
    assert friends[..|friends|] == friends;
  }

  /** What each step of the run keeps: the handled set only grows, checked
      matches stay checked, a handled set of checked matches stays one, and
      the store invariant is kept. */
  ghost predicate Keeps(l: Ledger, processed: set<int>, l': Ledger, processed': set<int>)
  {
    && processed <= processed'
    && l.checked.Keys <= l'.checked.Keys
    && (processed <= l.checked.Keys ==> processed' <= l'.checked.Keys)
    && (LedgerOk(l) ==> LedgerOk(l'))
  }

  lemma HandleKeeps(l: Ledger, processed: set<int>, id: int, hint: Option<int>, source: map<int, Match>, cfg: Config, now: int)
    ensures var (l', p') := Handle(l, processed, id, hint, source, cfg, now); Keeps(l, processed, l', p')
  {
    ProcessMonotone(l, id, processed, Fetch(source, id), hint, cfg, now);
    if LedgerOk(l) {
      ProcessKeepsInvariant(l, id, processed, Fetch(source, id), hint, cfg, now);
    }
  }

  lemma {:induction false} RetryKeeps(l: Ledger, processed: set<int>, keys: seq<int>, source: map<int, Match>, cfg: Config, now: int)
    ensures var (l', p') := Retry(l, processed, keys, source, cfg, now); Keeps(l, processed, l', p')
    decreases |keys|
  {
    if keys != [] {
      var (l1, p1) := Retry(l, processed, keys[..|keys| - 1], source, cfg, now);
      RetryKeeps(l, processed, keys[..|keys| - 1], source, cfg, now);
      HandleKeeps(l1, p1, keys[|keys| - 1], HintOf(l1.unparsed, keys[|keys| - 1]), source, cfg, now);
    }
  }

  lemma {:induction false} PageStepKeeps(l: Ledger, processed: set<int>, ids: seq<int>, friend: int, source: map<int, Match>,
                                         cfg: Config, now: int)
    ensures var (l', p') := PageStep(l, processed, ids, friend, source, cfg, now); Keeps(l, processed, l', p')
    decreases |ids|
  {
    if ids != [] {
      var (l1, p1) := PageStep(l, processed, ids[..|ids| - 1], friend, source, cfg, now);
      PageStepKeeps(l, processed, ids[..|ids| - 1], friend, source, cfg, now);
      HandleKeeps(l1, p1, ids[|ids| - 1], Some(friend), source, cfg, now);
    }
  }

  lemma {:induction false} ScanFromKeeps(l: Ledger, processed: set<int>, friend: int, raw: seq<Listed>, cutoff: int, batch: nat,
                                         offset: nat, source: map<int, Match>, cfg: Config, now: int)
    requires batch > 0
    ensures var (l', p') := ScanFrom(l, processed, friend, raw, cutoff, batch, offset, source, cfg, now); Keeps(l, processed, l', p')
    decreases |raw| - offset
  {
    var ids := Page(raw, batch, offset, cutoff);
    if ids != [] {
      var (l1, p1) := PageStep(l, processed, ids, friend, source, cfg, now);
      PageStepKeeps(l, processed, ids, friend, source, cfg, now);
      ScanFromKeeps(l1, p1, friend, raw, cutoff, batch, offset + batch, source, cfg, now);
    }
  }

  lemma {:induction false} ScanAllKeeps(l: Ledger, processed: set<int>, friends: seq<int>, histories: map<int, seq<Listed>>,
                                        cutoff: int, batch: nat, source: map<int, Match>, cfg: Config, now: int)
    requires batch > 0
    ensures var (l', p') := ScanAll(l, processed, friends, histories, cutoff, batch, source, cfg, now); Keeps(l, processed, l', p')
    decreases |friends|
  {
    if friends != [] {
      var (l1, p1) := ScanAll(l, processed, friends[..|friends| - 1], histories, cutoff, batch, source, cfg, now);
      ScanAllKeeps(l, processed, friends[..|friends| - 1], histories, cutoff, batch, source, cfg, now);
      var f := friends[|friends| - 1];
      ScanFromKeeps(l1, p1, f, HistoryOf(histories, f), cutoff, batch, 0, source, cfg, now);
    }
  }

  /** After a run every match handled in it is checked, no match checked
      before the run is forgotten, and the store invariant still holds. */
  lemma RunKeeps(l: Ledger, keys: seq<int>, friends: seq<int>, histories: map<int, seq<Listed>>, cutoff: int,
                 batch: nat, source: map<int, Match>, cfg: Config, now: int)
    requires batch > 0
    ensures var (l', processed) := Run(l, keys, friends, histories, cutoff, batch, source, cfg, now);
            && processed <= l'.checked.Keys
            && l.checked.Keys <= l'.checked.Keys
            && (LedgerOk(l) ==> LedgerOk(l'))
  {
    var (l1, p1) := Retry(l, {}, keys, source, cfg, now);
    RetryKeeps(l, {}, keys, source, cfg, now);
    ScanAllKeeps(l1, p1, friends, histories, cutoff, batch, source, cfg, now);
  }

  /** The page step without the skip of already handled ids. */
  function PageStepUnskipped(l: Ledger, processed: set<int>, ids: seq<int>, friend: int, source: map<int, Match>,
                             cfg: Config, now: int): (Ledger, set<int>)
  {
    if ids == [] then (l, processed)
    else
      var (l1, p1) := PageStepUnskipped(l, processed, ids[..|ids| - 1], friend, source, cfg, now);
      Handle(l1, p1, ids[|ids| - 1], Some(friend), source, cfg, now)
  }

  /** The run's own skip changes nothing: the per-match pipeline already
      answers an id of the handled set with success and no change. */
  lemma {:induction false} SkipRedundant(l: Ledger, processed: set<int>, ids: seq<int>, friend: int, source: map<int, Match>,
                                         cfg: Config, now: int)
    ensures PageStep(l, processed, ids, friend, source, cfg, now) == PageStepUnskipped(l, processed, ids, friend, source, cfg, now)
    decreases |ids|
  {
    if ids != [] {
      SkipRedundant(l, processed, ids[..|ids| - 1], friend, source, cfg, now);
      var (l1, p1) := PageStep(l, processed, ids[..|ids| - 1], friend, source, cfg, now);
      var id := ids[|ids| - 1];
      if id in p1 {
        SkipHandled(l1, id, p1, Fetch(source, id), Some(friend), cfg, now);
        assert p1 + {id} == p1;
      }
    }
  }

  // ---------------------------------------------------------------------
  // The top-three summary.

  /** The points shown for a leaderboard key: the running total, or 0 for an
      entry that holds only streak keys. */
  function Points(lb: map<int, Entry>, sid: int): int
  {
    if sid in lb && lb[sid].profile.Some? then lb[sid].profile.value.totalPoints else 0
  }

  predicate SortedDesc(lb: map<int, Entry>, s: seq<int>)
  {
    forall i, j :: 0 <= i < j < |s| ==> Points(lb, s[i]) >= Points(lb, s[j])
  }

  /** Inserts x after every element with at least its points, which keeps
      equal-point keys in their arrival order. */
  function Insert(lb: map<int, Entry>, x: int, s: seq<int>): (r: seq<int>)
    ensures multiset(r) == multiset(s) + multiset{x}
  {
    if s == [] then [x]
    else if Points(lb, s[0]) >= Points(lb, x) then
      assert s == [s[0]] + s[1..];
      [s[0]] + Insert(lb, x, s[1..])
    else [x] + s
  }

  lemma {:induction false} InsertSorted(lb: map<int, Entry>, x: int, s: seq<int>)
    requires SortedDesc(lb, s)
    ensures SortedDesc(lb, Insert(lb, x, s))
    decreases |s|
  {
    if s != [] && Points(lb, s[0]) >= Points(lb, x) {
      InsertSorted(lb, x, s[1..]);
      HeadAbove(lb, x, s);
      var rest := Insert(lb, x, s[1..]);
      assert Insert(lb, x, s) == [s[0]] + rest;
    }
  }

  /** The head of a sorted list, already at least x, stays above everything
      that inserting x into the tail yields. */
  lemma HeadAbove(lb: map<int, Entry>, x: int, s: seq<int>)
    requires SortedDesc(lb, s) && s != [] && Points(lb, s[0]) >= Points(lb, x)
    ensures forall k :: 0 <= k < |Insert(lb, x, s[1..])| ==> Points(lb, s[0]) >= Points(lb, Insert(lb, x, s[1..])[k])
  {
    var rest := Insert(lb, x, s[1..]);
    forall k | 0 <= k < |rest| ensures Points(lb, s[0]) >= Points(lb, rest[k]) {
      assert rest[k] in multiset(rest);
      if rest[k] != x {
        assert rest[k] in multiset(s[1..]);
        var j :| 0 <= j < |s[1..]| && s[1..][j] == rest[k];
        assert s[j + 1] == rest[k];
      }
    }
  }

  /** The leaderboard keys in the order they are visited, sorted by points,
      highest first, keeping ties in visiting order. */
  function SortByPoints(lb: map<int, Entry>, s: seq<int>): (r: seq<int>)
    ensures multiset(r) == multiset(s)
  {
    if s == [] then []
    else
      assert s == s[..|s| - 1] + [s[|s| - 1]];
      Insert(lb, s[|s| - 1], SortByPoints(lb, s[..|s| - 1]))
  }

  lemma {:induction false} SortSorted(lb: map<int, Entry>, s: seq<int>)
    ensures SortedDesc(lb, SortByPoints(lb, s))
    decreases |s|
  {
    if s != [] {
      SortSorted(lb, s[..|s| - 1]);
      InsertSorted(lb, s[|s| - 1], SortByPoints(lb, s[..|s| - 1]));
    }
  }

  /** The first three of the sorted keys. */
  function Leaders(lb: map<int, Entry>, order: seq<int>): seq<int>
  {
    var sorted := SortByPoints(lb, order);
    sorted[..if |sorted| < 3 then |sorted| else 3]
  }

  /** The leaders are at most three keys of the leaderboard, highest first,
      and no key left out has more points than any of them. */
  lemma LeadersSpec(lb: map<int, Entry>, order: seq<int>)
    ensures var top := Leaders(lb, order);
            && |top| == (if |order| < 3 then |order| else 3)
            && SortedDesc(lb, top)
            && multiset(top) <= multiset(order)
            && (forall sid, t :: sid in order && sid !in top && t in top ==> Points(lb, t) >= Points(lb, sid))
  {
    var sorted := SortByPoints(lb, order);
    SortSorted(lb, order);
    var n := if |sorted| < 3 then |sorted| else 3;
    var top := sorted[..n];
    assert |sorted| == |multiset(sorted)| == |order|;
    PrefixSorted(lb, sorted, n);
    PrefixMultiset(sorted, n);
    forall sid, t | sid in order && sid !in top && t in top ensures Points(lb, t) >= Points(lb, sid) {
      assert sid in multiset(order);
      TopAbove(lb, sorted, n, sid, t);
    }
  }

  lemma PrefixSorted(lb: map<int, Entry>, s: seq<int>, n: nat)
    requires SortedDesc(lb, s) && n <= |s|
    ensures SortedDesc(lb, s[..n])
  {
    forall i, j | 0 <= i < j < n ensures Points(lb, s[..n][i]) >= Points(lb, s[..n][j]) {
      assert s[..n][i] == s[i] && s[..n][j] == s[j];
    }
  }

  lemma PrefixMultiset(s: seq<int>, n: nat)
    requires n <= |s|
    ensures multiset(s[..n]) <= multiset(s)
  {
    assert s == s[..n] + s[n..];
  }

  /** In a list sorted highest first, a key among the first n has at least
      the points of a key found only after them. */
  lemma TopAbove(lb: map<int, Entry>, sorted: seq<int>, n: nat, sid: int, t: int)
    requires SortedDesc(lb, sorted) && n <= |sorted|
    requires sid in sorted && sid !in sorted[..n] && t in sorted[..n]
    ensures Points(lb, t) >= Points(lb, sid)
  {
    forall k | 0 <= k < n ensures sorted[k] != sid {
      assert sorted[..n][k] == sorted[k];
    }
    var i :| 0 <= i < |sorted| && sorted[i] == sid;
    var j :| 0 <= j < n && sorted[..n][j] == t;
    assert sorted[j] == t;
  }

  /** One line of the summary: the display name and the points. */
  datatype Standing = Standing(name: string, points: int)

  /** The display name: the roster's name, else the stored name, else the key. */
  function NameFor(lb: map<int, Entry>, roster: map<int, string>, sid: int): string
  {
    if sid in roster then roster[sid]
    else if sid in lb && lb[sid].profile.Some? then lb[sid].profile.value.name
    else IntToString(sid)
  }

  /** The top-three summary over the leaderboard visited in `order`. */
  function TopThree(lb: map<int, Entry>, order: seq<int>, roster: map<int, string>): (r: seq<Standing>)
    ensures |r| == if |order| < 3 then |order| else 3
    ensures forall i, j :: 0 <= i < j < |r| ==> r[i].points >= r[j].points
    ensures forall i :: 0 <= i < |r| ==> exists sid :: sid in order && r[i] == Standing(NameFor(lb, roster, sid), Points(lb, sid))
  {
    LeadersSpec(lb, order);
    var top := Leaders(lb, order);
    var r := Standings(lb, roster, top);
    assert forall i :: 0 <= i < |r| ==> exists sid :: sid in order && r[i] == Standing(NameFor(lb, roster, sid), Points(lb, sid)) by {
      forall i | 0 <= i < |r| ensures exists sid :: sid in order && r[i] == Standing(NameFor(lb, roster, sid), Points(lb, sid)) {
        assert top[i] in multiset(top);
        assert top[i] in order;
      }
    }
    r
  }

  function Standings(lb: map<int, Entry>, roster: map<int, string>, top: seq<int>): (r: seq<Standing>)
    ensures |r| == |top|
    ensures forall i :: 0 <= i < |r| ==> r[i] == Standing(NameFor(lb, roster, top[i]), Points(lb, top[i]))
  {
    if top == [] then [] else Standings(lb, roster, top[..|top| - 1]) + [Standing(NameFor(lb, roster, top[|top| - 1]), Points(lb, top[|top| - 1]))]
  }

  /** The summary as the run prints it: the leaders sorted out first, then
      one line per leader, in order. */
  method PrintTopThree(lb: map<int, Entry>, order: seq<int>, roster: map<int, string>) returns (lines: seq<Standing>)
    ensures lines == TopThree(lb, order, roster)
  {
    var top := Leaders(lb, order);
    lines := [];
    var i := 0;
    while i < |top|
      invariant 0 <= i <= |top|
      invariant lines == Standings(lb, roster, top[..i])
    {
      assert top[..i + 1][..i] == top[..i];
      lines := lines + [Standing(NameFor(lb, roster, top[i]), Points(lb, top[i]))];
      i := i + 1;
    }
    assert top[..|top|] == top;
  }

  // ---------------------------------------------------------------------
  // The single-match test entry point.

  /** The characters the text-to-integer conversion strips (ASCII only). */
  predicate IsSpace(c: char)
  {
    9 <= c as int <= 13 || 28 <= c as int <= 32
  }

  predicate IsDigit(c: char)
  {
    '0' <= c <= '9'
  }

  function TrimLeft(s: string): (t: string)
    ensures t == [] || !IsSpace(t[0])
    ensures |t| <= |s| && t == s[|s| - |t|..]
  {
    if s != [] && IsSpace(s[0]) then TrimLeft(s[1..]) else s
  }

  function TrimRight(s: string): (t: string)
    ensures t == [] || !IsSpace(t[|t| - 1])
    ensures |t| <= |s| && t == s[..|t|]
  {
    if s != [] && IsSpace(s[|s| - 1]) then TrimRight(s[..|s| - 1]) else s
  }

  /** Decimal digits with single underscores between them. */
  predicate DigitsOk(b: string)
  {
    && |b| >= 1 && IsDigit(b[0]) && IsDigit(b[|b| - 1])
    && (forall i :: 0 <= i < |b| ==> IsDigit(b[i]) || b[i] == '_')
    && (forall i :: 0 <= i < |b| - 1 ==> b[i] == '_' ==> b[i + 1] != '_')
  }

  /** The value of digits, skipping underscores. */
  function DigitsValue(b: string): nat
  {
    if b == [] then 0
    else
      var c := b[|b| - 1];
      if IsDigit(c) then 10 * DigitsValue(b[..|b| - 1]) + (c as int - '0' as int)
      else DigitsValue(b[..|b| - 1])
  }

  /** Converting text to an integer: surrounding whitespace is stripped, an
      optional sign read, and the rest must be digits; `None` is the error. */
  function ParseInt(s: string): (r: Option<int>)
    ensures r.Some? ==> exists b :: DigitsOk(b) && (r.value == DigitsValue(b) as int || r.value == -(DigitsValue(b) as int))
  {
    var t := TrimRight(TrimLeft(s));
    if t == [] then None
    else
      var signed := t[0] == '+' || t[0] == '-';
      var b := if signed then t[1..] else t;
      if !DigitsOk(b) then None
      else
        var v: int := DigitsValue(b);
        Some(if t[0] == '-' then -v else v)
  }

  lemma DigitIs(d: nat)
    requires d < 10
    ensures IsDigit(Digit(d)) && Digit(d) as int - '0' as int == d
  {
    assert "0123456789"[0] == '0' && "0123456789"[1] == '1' && "0123456789"[2] == '2' && "0123456789"[3] == '3'
        && "0123456789"[4] == '4' && "0123456789"[5] == '5' && "0123456789"[6] == '6' && "0123456789"[7] == '7'
        && "0123456789"[8] == '8' && "0123456789"[9] == '9';
  }

  lemma {:induction false} NatToStringDigits(n: nat)
    ensures forall i :: 0 <= i < |NatToString(n)| ==> IsDigit(NatToString(n)[i])
    ensures DigitsValue(NatToString(n)) == n
    decreases n
  {
    DigitIs(n % 10);
    if n >= 10 {
      NatToStringDigits(n / 10);
      var s := NatToString(n);
      assert s[..|s| - 1] == NatToString(n / 10);
    }
  }

  /** Reading back a printed integer gives the integer. */
  lemma ParseIntRoundTrip(i: int)
    ensures ParseInt(IntToString(i)) == Some(i)
  {
    var n: nat := if i < 0 then -i else i;
    var d := NatToString(n);
    NatToStringDigits(n);
    assert DigitsOk(d) by {
      forall k | 0 <= k < |d| - 1 ensures d[k] == '_' ==> d[k + 1] != '_' {
        assert IsDigit(d[k]);
      }
    }
    ParseDigits(IntToString(i), d, i < 0);
  }

  /** Reading an optional minus sign followed by well-formed digits. */
  lemma ParseDigits(t: string, d: string, neg: bool)
    requires DigitsOk(d) && t == (if neg then "-" + d else d)
    ensures ParseInt(t) == Some(if neg then -(DigitsValue(d) as int) else DigitsValue(d) as int)
  {
    assert t[|t| - 1] == d[|d| - 1];
    if neg {
      assert t[1..] == d;
    } else {
      assert t[0] == d[0];
    }
    TrimPrinted(t);
  }

  lemma TrimPrinted(s: string)
    requires |s| >= 1 && !IsSpace(s[0]) && !IsSpace(s[|s| - 1])
    ensures TrimRight(TrimLeft(s)) == s
  {
  }

  /** The outcome the single-match test reports. */
  datatype Report = InvalidId | Succeeded(id: int) | Completed(id: int)

  /** The single-match test as written: the success message is chosen by the
      run set, which nothing adds to. */
  function TestRunAsWritten(l: Ledger, arg: string, source: map<int, Match>, cfg: Config, now: int): (Ledger, Report)
  {
    match ParseInt(arg)
    case None => (l, InvalidId)
    case Some(id) =>
      var processed: set<int> := {};
      var (l', _) := Process(l, id, processed, Fetch(source, id), None, cfg, now);
      (l', if id in processed then Succeeded(id) else Completed(id))
  }

  /** The single-match test with the report chosen by the pipeline's answer. */
  function TestRun(l: Ledger, arg: string, source: map<int, Match>, cfg: Config, now: int): (Ledger, Report)
  {
    match ParseInt(arg)
    case None => (l, InvalidId)
    case Some(id) =>
      var (l', ok) := Process(l, id, {}, Fetch(source, id), None, cfg, now);
      (l', if ok then Succeeded(id) else Completed(id))
  }

  /** As written, a match that is fetched and ready and handled in full is
      still reported as merely completed; the corrected test reports success. */
  lemma SuccessUnreported(l: Ledger, arg: string, source: map<int, Match>, cfg: Config, now: int)
    requires ParseInt(arg).Some?
    requires Process(l, ParseInt(arg).value, {}, Fetch(source, ParseInt(arg).value), None, cfg, now).1
    ensures TestRunAsWritten(l, arg, source, cfg, now).1 == Completed(ParseInt(arg).value)
    ensures TestRun(l, arg, source, cfg, now).1 == Succeeded(ParseInt(arg).value)
    ensures TestRunAsWritten(l, arg, source, cfg, now).0 == TestRun(l, arg, source, cfg, now).0
  {
  }

  /** The single-match test: parse the id, process it once with no hint, and
      report. Text that is not a number leaves the store as it was. */
  method TestSingleMatch(arg: string, store: Store, source: map<int, Match>, cfg: Config, now: int) returns (report: Report)
    modifies store
    ensures (store.State(), report) == TestRun(old(store.State()), arg, source, cfg, now)
  {
    var parsed := ParseInt(arg);
    if parsed.None? {
      return InvalidId;
    }
    var id := parsed.value;
    var ok := ProcessMatch(id, store, {}, None, Fetch(source, id), cfg, now);
    report := if ok then Succeeded(id) else Completed(id);
  }

  /** A rejected id never touches the store, and a printed id is accepted. */
  lemma TestRunRejects(l: Ledger, arg: string, source: map<int, Match>, cfg: Config, now: int)
    ensures ParseInt(arg).None? ==> TestRun(l, arg, source, cfg, now) == (l, InvalidId)
    ensures forall id :: arg == IntToString(id) ==> TestRun(l, arg, source, cfg, now).1 != InvalidId
  {
    forall id | arg == IntToString(id) ensures TestRun(l, arg, source, cfg, now).1 != InvalidId {
      ParseIntRoundTrip(id);
    }
  }
}
