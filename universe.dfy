/** The weekly scheduler of fw/logic/universe.py: postponing overdue shows,
    advancing the week, and giving every federation a show in the new week. */
module Scheduler {
  import opened Models
  import opened Store
  import Text

  /** Federation `f` has a show scheduled at week `w`. */
  predicate HasShowAt(shows: map<Id, Show>, f: Id, w: int) {
    exists s :: s in shows && shows[s].fedId == f && shows[s].week == w
  }

  /** The number of shows of federation `fid`. */
  function ShowCount(shows: map<Id, Show>, fid: Id): nat {
    |set s | s in shows && shows[s].fedId == fid|
  }

  /** The show `schedule_weekly_if_missing` creates for federation `fid`
      (`fed`) when it already has `count` shows; `draw` is the weirdness
      draw from [10, 25]. Python's `//` floors, which for the divisor 10 is
      Dafny's `/`. */
  function WeeklyShow(fed: Federation, fid: Id, count: nat, week: int, draw: int): (s: Show)
    ensures 0 <= s.weirdness <= 100
    ensures 10 <= draw <= 25 && 0 <= fed.popularity <= 100 ==> 10 <= s.weirdness <= 35
  {
    Show(fid, fed.name + " Weekly #" + Text.NatToString(count + 1), week, Upcoming,
         Clamp(draw + fed.popularity / 10, 0, 100))
  }

  /** Some show outside `left` belongs to `f` and is scheduled at `w`. */
  predicate SeenAt(shows: map<Id, Show>, left: set<Id>, f: Id, w: int) {
    exists s :: s in shows && s !in left && shows[s].fedId == f && shows[s].week == w
  }

  lemma {:induction false} SeenStep(shows: map<Id, Show>, left: set<Id>, k: Id, f: Id, w: int)
    requires k in left && k in shows
    ensures SeenAt(shows, left - {k}, f, w) <==>
      SeenAt(shows, left, f, w) || (shows[k].fedId == f && shows[k].week == w)
  {
    if SeenAt(shows, left - {k}, f, w) {
      var s :| s in shows && s !in left - {k} && shows[s].fedId == f && shows[s].week == w;
      if s != k {
        assert s !in left;
      }
    }
    if SeenAt(shows, left, f, w) {
      var s :| s in shows && s !in left && shows[s].fedId == f && shows[s].week == w;
      assert s !in left - {k};
    }
    if shows[k].fedId == f && shows[k].week == w {
      assert k !in left - {k};
    }
  }

  /** `by_fed`: for every federation, the weeks at which it has a show. */
  method FedWeeks(shows: map<Id, Show>) returns (byFed: map<Id, set<int>>)
    ensures forall f, w :: (f in byFed && w in byFed[f]) <==> HasShowAt(shows, f, w)
  {
    byFed := map[];
    var left := shows.Keys;
    while left != {}
      invariant left <= shows.Keys
      invariant forall f, w :: (f in byFed && w in byFed[f]) <==> SeenAt(shows, left, f, w)
      decreases |left|
    {
      var k :| k in left;
      var s := shows[k];
      var weeks := if s.fedId in byFed then byFed[s.fedId] else {};
      forall f, w ensures SeenAt(shows, left - {k}, f, w) <==>
        SeenAt(shows, left, f, w) || (s.fedId == f && s.week == w)
      {
        SeenStep(shows, left, k, f, w);
      }
      byFed := byFed[s.fedId := weeks + {s.week}];
      left := left - {k};
    }
    forall f, w ensures SeenAt(shows, {}, f, w) <==> HasShowAt(shows, f, w) {
      if HasShowAt(shows, f, w) {
        var s :| s in shows && shows[s].fedId == f && shows[s].week == w;
        assert s !in {};
      }
    }
  }

  /** Shows present before stay, unchanged. */
  ghost predicate ShowsKept(shows0: map<Id, Show>, shows: map<Id, Show>) {
    forall s :: s in shows0 ==> s in shows && shows[s] == shows0[s]
  }

  /** `s` is the weekly show at `week`, with weirdness draw `draw`, of a
      federation that had no show at that week in `shows0`. */
  ghost predicate IsWeekly(shows0: map<Id, Show>, feds: map<Id, Federation>, week: int, draw: int, s: Show) {
    && s.fedId in feds && !HasShowAt(shows0, s.fedId, week)
    && s == WeeklyShow(feds[s.fedId], s.fedId, ShowCount(shows0, s.fedId), week, draw)
  }

  /** The shows `added` (in this order) are the new ones, relative to
      `shows0`: each is the weekly show at `week` of a federation without a
      show at that week, the k-th taking draw `weird(k)`; their federations
      come in ascending id, so no federation gets two. */
  ghost predicate WeeklyAdded(shows0: map<Id, Show>, shows: map<Id, Show>, feds: map<Id, Federation>,
                              added: seq<Id>, week: int, weird: nat -> int)
  {
    && AddedFresh(shows0, shows, added)
    && (forall k :: 0 <= k < |added| ==> added[k] in shows && IsWeekly(shows0, feds, week, weird(k), shows[added[k]]))
    && FedsAscending(shows, added)
  }

  /** The keys of `shows` are those of `shows0` and the fresh, ascending `added`. */
  ghost predicate AddedFresh(shows0: map<Id, Show>, shows: map<Id, Show>, added: seq<Id>) {
    && (forall s :: s in shows <==> s in shows0 || s in added)
    && (forall s :: s in added ==> s !in shows0)
    && Ascending(added)
  }

  /** The shows of `added` belong to federations of ascending id. */
  ghost predicate FedsAscending(shows: map<Id, Show>, added: seq<Id>) {
    forall k, l :: 0 <= k < l < |added| && added[k] in shows && added[l] in shows ==>
      shows[added[k]].fedId < shows[added[l]].fedId
  }

  /** After the loop of schedule_weekly_if_missing has seen the first `i`
      federations of `fids`: those have a show at `week`, and every added
      show belongs to one of them. */
  ghost predicate Scheduling(shows0: map<Id, Show>, shows: map<Id, Show>, feds: map<Id, Federation>,
                             fids: seq<Id>, i: nat, added: seq<Id>, week: int, weird: nat -> int)
  {
    && i <= |fids|
    && ShowsKept(shows0, shows)
    && WeeklyAdded(shows0, shows, feds, added, week, weird)
    && (forall j :: 0 <= j < i ==> HasShowAt(shows, fids[j], week))
    && (forall k :: 0 <= k < |added| && added[k] in shows ==> shows[added[k]].fedId in fids[..i])
  }

  lemma {:induction false} HasShowKept(shows0: map<Id, Show>, shows: map<Id, Show>, f: Id, w: int)
    requires ShowsKept(shows0, shows) && HasShowAt(shows0, f, w)
    ensures HasShowAt(shows, f, w)
  {
    var s :| s in shows0 && shows0[s].fedId == f && shows0[s].week == w;
    assert s in shows && shows[s].fedId == f && shows[s].week == w;
  }

  /** Adding shows of other federations leaves the count of `fid` alone. */
  lemma {:induction false} CountUnchanged(shows0: map<Id, Show>, shows: map<Id, Show>, added: seq<Id>, fid: Id)
    requires ShowsKept(shows0, shows)
    requires forall s :: s in shows <==> s in shows0 || s in added
    requires forall s :: s in added && s in shows ==> shows[s].fedId != fid
    ensures ShowCount(shows, fid) == ShowCount(shows0, fid)
  {
    assert (set s | s in shows && shows[s].fedId == fid) == (set s | s in shows0 && shows0[s].fedId == fid);
  }

  /** A pass that finds a show of `fids[i]` at `week` already there. */
  lemma {:induction false} SchedulingSkip(shows0: map<Id, Show>, shows: map<Id, Show>, feds: map<Id, Federation>,
                                          fids: seq<Id>, i: nat, added: seq<Id>, week: int, weird: nat -> int)
    requires Scheduling(shows0, shows, feds, fids, i, added, week, weird) && i < |fids|
    requires HasShowAt(shows0, fids[i], week)
    ensures Scheduling(shows0, shows, feds, fids, i + 1, added, week, weird)
  {
    HasShowKept(shows0, shows, fids[i], week);
    assert fids[..i] <= fids[..i + 1];
    forall k | 0 <= k < |added| && added[k] in shows ensures shows[added[k]].fedId in fids[..i + 1] {
      assert shows[added[k]].fedId in fids[..i];
    }
  }

  /** A pass that adds the weekly show `sid` of `fids[i]`. */
  lemma {:induction false} SchedulingAdd(shows0: map<Id, Show>, shows: map<Id, Show>, feds: map<Id, Federation>,
                                         fids: seq<Id>, i: nat, added: seq<Id>, week: int, weird: nat -> int,
                                         sid: Id)
    requires Scheduling(shows0, shows, feds, fids, i, added, week, weird) && i < |fids| && Ascending(fids)
    requires fids[i] in feds && !HasShowAt(shows0, fids[i], week)
    requires sid !in shows && forall s :: s in shows ==> s < sid
    ensures var f := fids[i];
      Scheduling(shows0, shows[sid := WeeklyShow(feds[f], f, ShowCount(shows, f), week, weird(|added|))],
                 feds, fids, i + 1, added + [sid], week, weird)
  {
    var f := fids[i];
    forall k | 0 <= k < |added| && added[k] in shows ensures shows[added[k]].fedId < f {
      assert shows[added[k]].fedId in fids[..i];
      var j :| 0 <= j < i && fids[j] == shows[added[k]].fedId;
    }
    CountUnchanged(shows0, shows, added, f);
    var n := WeeklyShow(feds[f], f, ShowCount(shows, f), week, weird(|added|));
    AddedStep(shows0, shows, feds, added, week, weird, sid, n);
    CoverStep(shows, fids, i, week, sid, n);
    FidsStep(shows, fids, i, added, sid, n);
  }

  lemma {:induction false} AddedStep(shows0: map<Id, Show>, shows: map<Id, Show>, feds: map<Id, Federation>,
                                     added: seq<Id>, week: int, weird: nat -> int, sid: Id, n: Show)
    requires WeeklyAdded(shows0, shows, feds, added, week, weird)
    requires sid !in shows && forall s :: s in shows ==> s < sid
    requires IsWeekly(shows0, feds, week, weird(|added|), n)
    requires forall k :: 0 <= k < |added| && added[k] in shows ==> shows[added[k]].fedId < n.fedId
    ensures WeeklyAdded(shows0, shows[sid := n], feds, added + [sid], week, weird)
  {
    FreshStep(shows0, shows, added, sid, n);
    FedsAscendingStep(shows, added, sid, n);
    var shows', added' := shows[sid := n], added + [sid];
    forall k | 0 <= k < |added'| ensures added'[k] in shows' && IsWeekly(shows0, feds, week, weird(k), shows'[added'[k]]) {
      if k < |added| {
        assert added'[k] == added[k] && added[k] in shows && shows'[added[k]] == shows[added[k]];
      }
    }
  }

  lemma {:induction false} FreshStep(shows0: map<Id, Show>, shows: map<Id, Show>, added: seq<Id>, sid: Id, n: Show)
    requires AddedFresh(shows0, shows, added)
    requires sid !in shows && forall s :: s in shows ==> s < sid
    ensures AddedFresh(shows0, shows[sid := n], added + [sid])
  {
    var added' := added + [sid];
    forall s | s in added' ensures s !in shows0 {
      if s != sid {
        assert s in added;
      }
    }
    forall k, l | 0 <= k < l < |added'| ensures added'[k] < added'[l] {
      if l == |added| {
        assert added'[k] == added[k] && added[k] in shows;
      }
    }
  }

  lemma {:induction false} FedsAscendingStep(shows: map<Id, Show>, added: seq<Id>, sid: Id, n: Show)
    requires FedsAscending(shows, added) && sid !in shows
    requires forall k :: 0 <= k < |added| ==> added[k] in shows
    requires forall k :: 0 <= k < |added| && added[k] in shows ==> shows[added[k]].fedId < n.fedId
    ensures FedsAscending(shows[sid := n], added + [sid])
  {
    var shows', added' := shows[sid := n], added + [sid];
    forall k, l | 0 <= k < l < |added'| && added'[k] in shows' && added'[l] in shows'
      ensures shows'[added'[k]].fedId < shows'[added'[l]].fedId
    {
      assert added'[k] == added[k] && shows'[added[k]] == shows[added[k]];
      if l < |added| {
        assert added'[l] == added[l] && shows'[added[l]] == shows[added[l]];
      }
    }
  }

  lemma {:induction false} CoverStep(shows: map<Id, Show>, fids: seq<Id>, i: nat, week: int, sid: Id, n: Show)
    requires i < |fids| && forall j :: 0 <= j < i ==> HasShowAt(shows, fids[j], week)
    requires sid !in shows && n.fedId == fids[i] && n.week == week
    ensures forall j :: 0 <= j < i + 1 ==> HasShowAt(shows[sid := n], fids[j], week)
  {
    var shows' := shows[sid := n];
    forall j | 0 <= j < i + 1 ensures HasShowAt(shows', fids[j], week) {
      if j < i {
        assert HasShowAt(shows, fids[j], week);
        var s :| s in shows && shows[s].fedId == fids[j] && shows[s].week == week;
        assert s in shows' && shows'[s] == shows[s];
      } else {
        assert sid in shows' && shows'[sid] == n;
      }
    }
  }

  lemma {:induction false} FidsStep(shows: map<Id, Show>, fids: seq<Id>, i: nat, added: seq<Id>, sid: Id, n: Show)
    requires i < |fids| && n.fedId == fids[i] && sid !in shows
    requires forall k :: 0 <= k < |added| && added[k] in shows ==> shows[added[k]].fedId in fids[..i]
    requires forall k :: 0 <= k < |added| ==> added[k] in shows
    ensures forall k :: 0 <= k < |added + [sid]| && (added + [sid])[k] in shows[sid := n] ==>
      shows[sid := n][(added + [sid])[k]].fedId in fids[..i + 1]
  {
    var shows', added' := shows[sid := n], added + [sid];
    forall k | 0 <= k < |added'| && added'[k] in shows' ensures shows'[added'[k]].fedId in fids[..i + 1] {
      if k < |added| {
        assert added'[k] == added[k] && shows'[added[k]] == shows[added[k]];
        assert shows[added[k]].fedId in fids[..i];
        var j :| 0 <= j < i && fids[..i][j] == shows[added[k]].fedId;
        assert fids[..i + 1][j] == fids[j];
      } else {
        assert fids[..i + 1][i] == fids[i];
      }
    }
  }

  /** `schedule_weekly_if_missing(week)`: every federation, visited in
      insertion (ascending id) order, that has no show at `week` gets one
      new weekly show; nothing is changed or removed. */
  method ScheduleWeeklyIfMissing(u: Universe, week: int, weird: nat -> int) returns (added: seq<Id>)
    requires u.Valid()
    modifies u`shows, u`nextId
    ensures u.Valid()
    ensures forall f :: f in u.federations ==> HasShowAt(u.shows, f, week)
    ensures ShowsKept(old(u.shows), u.shows)
    ensures WeeklyAdded(old(u.shows), u.shows, u.federations, added, week, weird)
  {
    var byFed := FedWeeks(u.shows);
    var fids := KeysInOrder(u.federations, u.nextId);
    added := [];
    for i := 0 to |fids|
      invariant u.Valid()
      invariant Scheduling(old(u.shows), u.shows, u.federations, fids, i, added, week, weird)
    {
      var fid := fids[i];
      if fid in byFed && week in byFed[fid] {
        SchedulingSkip(old(u.shows), u.shows, u.federations, fids, i, added, week, weird);
      } else {
        ghost var shows := u.shows;
        var fed := u.federations[fid];
        var sid := u.AddShow(WeeklyShow(fed, fid, ShowCount(u.shows, fid), week, weird(|added|)));
        SchedulingAdd(old(u.shows), shows, u.federations, fids, i, added, week, weird, sid);
        added := added + [sid];
      }
    }
    forall f | f in u.federations ensures HasShowAt(u.shows, f, week) {
      var j :| 0 <= j < |fids| && fids[j] == f;
    }
  }

  /** A show skip_time postpones: still upcoming, scheduled before `wk`. */
  predicate Overdue(s: Show, wk: int) {
    s.week < wk && s.status == Upcoming
  }

  /** The show after the postponing pass at week `wk`. */
  function AfterPostpone(s: Show, wk: int): (r: Show)
    ensures r.fedId == s.fedId && r.name == s.name && r.week == s.week && r.weirdness == s.weirdness
    ensures r.status == Postponed <==> s.status == Postponed || Overdue(s, wk)
    ensures r.status == Upcoming <==> s.status == Upcoming && !Overdue(s, wk)
    ensures r.status == Completed <==> s.status == Completed
  {
    if Overdue(s, wk) then s.(status := Postponed) else s
  }

  function PostponeEvent(s: Show, wk: int): Event {
    Event(ShowPostponed, "Show postponed: " + s.name, 2, wk)
  }

  /** `tk` is `base` with one postponement event, stamped `wk`, pushed for
      each show of `ids` in turn (the last on top). */
  ghost predicate PostponeLogged(tk: seq<Event>, base: seq<Event>, shows: map<Id, Show>, ids: seq<Id>, wk: int) {
    && |tk| == |base| + |ids|
    && tk[|ids|..] == base
    && forall t :: 0 <= t < |ids| && ids[t] in shows ==> tk[|ids| - 1 - t] == PostponeEvent(shows[ids[t]], wk)
  }

  /** The postponing loop after the first `i` keys of `keys`. */
  ghost predicate Postponing(shows0: map<Id, Show>, shows: map<Id, Show>, keys: seq<Id>, i: nat,
                             postponed: seq<Id>, wk: int)
  {
    && i <= |keys|
    && shows.Keys == shows0.Keys
    && (forall j :: 0 <= j < i && keys[j] in shows0 ==> shows[keys[j]] == AfterPostpone(shows0[keys[j]], wk))
    && (forall j :: i <= j < |keys| && keys[j] in shows0 ==> shows[keys[j]] == shows0[keys[j]])
    && (forall s :: s in postponed <==> s in keys[..i] && s in shows0 && Overdue(shows0[s], wk))
    && Ascending(postponed)
  }

  /** The keys before position `i` of an ascending sequence are smaller than its i-th. */
  lemma {:induction false} EarlierKeys(keys: seq<Id>, i: nat)
    requires Ascending(keys) && i < |keys|
    ensures forall s :: s in keys[..i] ==> s < keys[i]
    ensures keys[..i + 1] == keys[..i] + [keys[i]]
  {
    forall s | s in keys[..i] ensures s < keys[i] {
      var j :| 0 <= j < i && keys[..i][j] == s;
      assert keys[j] == s;
    }
  }

  /** A pass that postpones the show `keys[i]`. */
  lemma {:induction false} PostponeHit(shows0: map<Id, Show>, shows: map<Id, Show>, keys: seq<Id>, i: nat,
                                       postponed: seq<Id>, wk: int)
    requires Postponing(shows0, shows, keys, i, postponed, wk) && i < |keys| && Ascending(keys)
    requires keys[i] in shows0 && Overdue(shows[keys[i]], wk)
    ensures var k := keys[i];
      Postponing(shows0, shows[k := shows[k].(status := Postponed)], keys, i + 1, postponed + [k], wk)
  {
    var k := keys[i];
    assert shows[k] == shows0[k];
    EarlierKeys(keys, i);
    var shows' := shows[k := shows[k].(status := Postponed)];
    forall j | 0 <= j < i + 1 && keys[j] in shows0 ensures shows'[keys[j]] == AfterPostpone(shows0[keys[j]], wk) {
      if j < i {
        assert keys[j] < k;
      }
    }
    forall j | i + 1 <= j < |keys| && keys[j] in shows0 ensures shows'[keys[j]] == shows0[keys[j]] {
      assert keys[j] > k;
    }
    var p' := postponed + [k];
    forall a, b | 0 <= a < b < |p'| ensures p'[a] < p'[b] {
      if b == |postponed| {
        assert p'[a] == postponed[a] && postponed[a] in postponed;
      }
    }
  }

  /** A pass that leaves the show `keys[i]` alone. */
  lemma {:induction false} PostponeMiss(shows0: map<Id, Show>, shows: map<Id, Show>, keys: seq<Id>, i: nat,
                                        postponed: seq<Id>, wk: int)
    requires Postponing(shows0, shows, keys, i, postponed, wk) && i < |keys| && Ascending(keys)
    requires keys[i] in shows0 && !Overdue(shows[keys[i]], wk)
    ensures Postponing(shows0, shows, keys, i + 1, postponed, wk)
  {
    var k := keys[i];
    assert shows[k] == shows0[k];
    EarlierKeys(keys, i);
    forall j | 0 <= j < i + 1 && keys[j] in shows0 ensures shows[keys[j]] == AfterPostpone(shows0[keys[j]], wk) {
    }
  }

  lemma {:induction false} LoggedStep(tk: seq<Event>, base: seq<Event>, shows: map<Id, Show>, ids: seq<Id>,
                                      k: Id, wk: int)
    requires PostponeLogged(tk, base, shows, ids, wk) && k in shows
    ensures PostponeLogged([PostponeEvent(shows[k], wk)] + tk, base, shows, ids + [k], wk)
  {
    var tk' := [PostponeEvent(shows[k], wk)] + tk;
    var ids' := ids + [k];
    assert tk'[|ids'|..] == tk[|ids|..];
    forall t | 0 <= t < |ids'| && ids'[t] in shows ensures tk'[|ids'| - 1 - t] == PostponeEvent(shows[ids'[t]], wk) {
      if t < |ids| {
        assert ids'[t] == ids[t] && tk'[|ids'| - 1 - t] == tk[|ids| - 1 - t];
      }
    }
  }

  /** The postponing pass of `skip_time`: in insertion (ascending id) order,
      every upcoming show scheduled before the current week becomes
      postponed, with an event each; no other show changes. */
  method PostponeOverdue(u: Universe) returns (postponed: seq<Id>)
    requires u.Valid()
    modifies u`shows, u`ticker
    ensures u.Valid()
    ensures u.shows.Keys == old(u.shows).Keys
    ensures forall s :: s in old(u.shows) ==> u.shows[s] == AfterPostpone(old(u.shows)[s], u.currentWeek)
    ensures forall s :: s in postponed <==> s in old(u.shows) && Overdue(old(u.shows)[s], u.currentWeek)
    ensures Ascending(postponed)
    ensures PostponeLogged(u.ticker, old(u.ticker), old(u.shows), postponed, u.currentWeek)
  {
    var wk := u.currentWeek;
    var keys := KeysInOrder(u.shows, u.nextId);
    postponed := [];
    for i := 0 to |keys|
      invariant u.Valid() && u.currentWeek == wk
      invariant Postponing(old(u.shows), u.shows, keys, i, postponed, wk)
      invariant PostponeLogged(u.ticker, old(u.ticker), old(u.shows), postponed, wk)
    {
      postponed := PostponeNext(u, keys, i, postponed, old(u.shows), old(u.ticker));
    }
    forall s | s in old(u.shows) ensures u.shows[s] == AfterPostpone(old(u.shows)[s], wk) {
      var j :| 0 <= j < |keys| && keys[j] == s;
    }
    assert keys[..|keys|] == keys;
  }

  /** One pass of the postponing loop: the show `keys[i]`. */
  method PostponeNext(u: Universe, keys: seq<Id>, i: nat, postponed: seq<Id>,
                      ghost shows0: map<Id, Show>, ghost tk0: seq<Event>) returns (postponed': seq<Id>)
    requires u.Valid() && Ascending(keys) && i < |keys| && keys[i] in shows0
    requires Postponing(shows0, u.shows, keys, i, postponed, u.currentWeek)
    requires PostponeLogged(u.ticker, tk0, shows0, postponed, u.currentWeek)
    modifies u`shows, u`ticker
    ensures u.Valid()
    ensures Postponing(shows0, u.shows, keys, i + 1, postponed', u.currentWeek)
    ensures PostponeLogged(u.ticker, tk0, shows0, postponed', u.currentWeek)
  {
    var k := keys[i];
    var wk := u.currentWeek;
    if Overdue(u.shows[k], wk) {
      PostponeHit(shows0, u.shows, keys, i, postponed, wk);
      LoggedStep(u.ticker, tk0, shows0, postponed, k, wk);
      u.SetShowStatus(k, Postponed);
      u.AddTicker(Note(ShowPostponed, "Show postponed: " + u.shows[k].name, 2));
      postponed' := postponed + [k];
    } else {
      PostponeMiss(shows0, u.shows, keys, i, postponed, wk);
      postponed' := postponed;
    }
  }

  /** Two show maps that agree on every show's federation and week. */
  lemma {:induction false} SameSlots(a: map<Id, Show>, b: map<Id, Show>)
    requires a.Keys == b.Keys
    requires forall s :: s in a ==> b[s].fedId == a[s].fedId && b[s].week == a[s].week
    ensures forall f, w :: HasShowAt(a, f, w) <==> HasShowAt(b, f, w)
    ensures forall f :: ShowCount(a, f) == ShowCount(b, f)
  {
    forall f, w ensures HasShowAt(a, f, w) <==> HasShowAt(b, f, w) {
      if HasShowAt(a, f, w) {
        var s :| s in a && a[s].fedId == f && a[s].week == w;
        assert s in b && b[s].fedId == f;
      }
      if HasShowAt(b, f, w) {
        var s :| s in b && b[s].fedId == f && b[s].week == w;
        assert s in a && a[s].fedId == f;
      }
    }
    forall f ensures ShowCount(a, f) == ShowCount(b, f) {
      assert (set s | s in a && a[s].fedId == f) == (set s | s in b && b[s].fedId == f);
    }
  }

  /** WeeklyAdded relative to a map, and so to any map with the same slots. */
  lemma {:induction false} WeeklyAddedSlots(a: map<Id, Show>, b: map<Id, Show>, shows: map<Id, Show>,
                                            feds: map<Id, Federation>, added: seq<Id>, week: int, weird: nat -> int)
    requires a.Keys == b.Keys
    requires forall s :: s in a ==> b[s].fedId == a[s].fedId && b[s].week == a[s].week
    requires WeeklyAdded(b, shows, feds, added, week, weird)
    ensures WeeklyAdded(a, shows, feds, added, week, weird)
  {
    SameSlots(a, b);
    forall k | 0 <= k < |added| ensures IsWeekly(a, feds, week, weird(k), shows[added[k]]) {
      assert IsWeekly(b, feds, week, weird(k), shows[added[k]]);
    }
  }

  /** `skip_time`: postpone the overdue shows, advance the week by one,
      schedule the new week's shows, and announce the rollover. */
  method SkipTime(u: Universe, weird: nat -> int) returns (postponed: seq<Id>, added: seq<Id>)
    requires u.Valid()
    modifies u`shows, u`ticker, u`currentWeek, u`nextId
    ensures u.Valid()
    ensures u.currentWeek == old(u.currentWeek) + 1
    ensures u.federations == old(u.federations) && u.workers == old(u.workers)
    ensures u.employment == old(u.employment) && u.matches == old(u.matches)
    ensures forall s :: s in postponed <==> s in old(u.shows) && Overdue(old(u.shows)[s], old(u.currentWeek))
    ensures forall s :: s in old(u.shows) ==>
      s in u.shows && u.shows[s] == AfterPostpone(old(u.shows)[s], old(u.currentWeek))
    ensures forall f :: f in u.federations ==> HasShowAt(u.shows, f, u.currentWeek)
    ensures WeeklyAdded(old(u.shows), u.shows, u.federations, added, u.currentWeek, weird)
    ensures |u.ticker| == |old(u.ticker)| + |postponed| + 1
    ensures u.ticker[0] == Event(ScheduleRollover, "Advanced to Week " + Text.IntToString(u.currentWeek), 2,
                                 u.currentWeek)
    ensures PostponeLogged(u.ticker[1..], old(u.ticker), old(u.shows), postponed, old(u.currentWeek))
  {
    postponed := PostponeOverdue(u);
    ghost var mid := u.shows;
    added := AdvanceWeek(u, weird);
    WeeklyAddedSlots(old(u.shows), mid, u.shows, u.federations, added, u.currentWeek, weird);
  }

  /** The second half of `skip_time`: advance the week by one, schedule the
      new week's shows, and announce the rollover. */
  method AdvanceWeek(u: Universe, weird: nat -> int) returns (added: seq<Id>)
    requires u.Valid()
    modifies u`shows, u`ticker, u`currentWeek, u`nextId
    ensures u.Valid()
    ensures u.currentWeek == old(u.currentWeek) + 1
    ensures ShowsKept(old(u.shows), u.shows)
    ensures forall f :: f in u.federations ==> HasShowAt(u.shows, f, u.currentWeek)
    ensures WeeklyAdded(old(u.shows), u.shows, u.federations, added, u.currentWeek, weird)
    ensures u.ticker == [Event(ScheduleRollover, "Advanced to Week " + Text.IntToString(u.currentWeek), 2,
                               u.currentWeek)] + old(u.ticker)
  {
    u.currentWeek := u.currentWeek + 1;
    added := ScheduleWeeklyIfMissing(u, u.currentWeek, weird);
    u.AddTicker(Note(ScheduleRollover, "Advanced to Week " + Text.IntToString(u.currentWeek), 2));
  }
}
