/** The older single-file simulator. Its roster query, style table, star
    score, scheduler and week rollover are the same code as the package's
    (Store, Booking and Scheduler model them once). What differs: booking
    pairs workers 1v1 by popping two ids at a time, every match is decided
    by the teamless rule, and running a card completes the show even when
    the card is empty. */
module Legacy {
  import opened Models
  import opened Store
  import Booking
  import Engine
  import Text

  // ------------------------------------------------------------ ensure_card

  /** The number of pairs the popping loop takes from a pool of `n` ids:
      as many as the pool holds, but at most four. */
  function PairCount(n: nat): (k: nat)
    ensures k <= 4 && 2 * k <= n
    ensures k == 4 || n - 2 * k < 2
  {
    if n / 2 < 4 then n / 2 else 4
  }

  /** Pair `k` of the popping loop: the last id left after `k` pairs, then
      the one before it. */
  function Popped(pool: seq<Id>, k: nat): (Id, Id)
    requires 2 * k + 2 <= |pool|
  {
    (pool[|pool| - 1 - 2 * k], pool[|pool| - 2 - 2 * k])
  }

  /** The popping loop of legacy `ensure_card`: while two ids are left and
      fewer than four pairs are made, take the last id and then the new last
      id as the next pair. */
  method PopPairs(pool: seq<Id>) returns (pairs: seq<(Id, Id)>)
    ensures |pairs| == PairCount(|pool|)
    ensures forall k :: 0 <= k < |pairs| ==> pairs[k] == Popped(pool, k)
  {
    var left := pool;
    pairs := [];
    while |left| >= 2 && |pairs| < 4
      invariant |pairs| <= 4
      invariant |left| + 2 * |pairs| == |pool| && left == pool[..|left|]
      invariant forall k :: 0 <= k < |pairs| ==> pairs[k] == Popped(pool, k)
      decreases |left|
    {
      var a := left[|left| - 1];
      left := left[..|left| - 1];
      var b := left[|left| - 1];
      left := left[..|left| - 1];
      pairs := pairs + [(a, b)];
    }
  }

  /** The record stored for pair `i`: order i + 1, the standard stipulation,
      no title, the two ids as participants, no team data, no result. */
  function PairMatch(showId: Id, i: nat, p: (Id, Id)): Match {
    Match(showId, i + 1, "Standard", false, [p.0, p.1], [], None, "")
  }

  function PairRecords(showId: Id, pairs: seq<(Id, Id)>): (r: seq<Match>)
    ensures |r| == |pairs|
    ensures forall i :: 0 <= i < |pairs| ==> r[i] == PairMatch(showId, i, pairs[i])
  {
    seq(|pairs|, i requires 0 <= i < |pairs| => PairMatch(showId, i, pairs[i]))
  }

  /** The matches `created` hold the pairs popped from `pool`, in order. */
  predicate PairsStored(ms: map<Id, Match>, created: seq<Id>, showId: Id, pool: seq<Id>) {
    && 2 * |created| <= |pool|
    && (forall c :: c in created ==> c in ms)
    && forall i :: 0 <= i < |created| ==> ms[created[i]] == PairMatch(showId, i, Popped(pool, i))
  }

  /** Popping from a pool without repeats: each match has two different
      participants from the pool, no id is in two matches, the orders run
      1, 2, ... and no match carries team data. */
  lemma {:induction false} PairsApart(ms: map<Id, Match>, created: seq<Id>, showId: Id, pool: seq<Id>)
    requires NoDup(pool) && PairsStored(ms, created, showId, pool)
    ensures forall i :: 0 <= i < |created| ==>
      var m := ms[created[i]];
      && m.showId == showId && m.order == i + 1 && m.teams == [] && m.result == None
      && |m.participants| == 2 && m.participants[0] != m.participants[1]
      && m.participants[0] in pool && m.participants[1] in pool
    ensures forall i, j :: 0 <= i < j < |created| ==>
      Booking.Disjoint(ms[created[i]].participants, ms[created[j]].participants)
  {
    var n := |pool|;
    forall i | 0 <= i < |created|
      ensures ms[created[i]].participants[0] != ms[created[i]].participants[1]
    {
      assert ms[created[i]].participants == [pool[n - 1 - 2 * i], pool[n - 2 - 2 * i]];
    }
    forall i, j | 0 <= i < j < |created|
      ensures Booking.Disjoint(ms[created[i]].participants, ms[created[j]].participants)
    {
      var x := ms[created[i]].participants;
      var y := ms[created[j]].participants;
      assert x == [pool[n - 1 - 2 * i], pool[n - 2 - 2 * i]];
      assert y == [pool[n - 1 - 2 * j], pool[n - 2 - 2 * j]];
      forall v | v in x ensures v !in y {
        assert v == pool[n - 1 - 2 * i] || v == pool[n - 2 - 2 * i];
      }
    }
  }

  lemma {:induction false} NoDupOnce<T>(s: seq<T>, x: T)
    requires NoDup(s)
    ensures multiset(s)[x] <= 1
    decreases |s|
  {
    if s != [] {
      assert s == [s[0]] + s[1..];
      assert NoDup(s[1..]) by {
        forall i, j | 0 <= i < j < |s| - 1 ensures s[1..][i] != s[1..][j] {
          assert s[1..][i] == s[i + 1] && s[1..][j] == s[j + 1];
        }
      }
      NoDupOnce(s[1..], x);
      if s[0] == x {
        assert x !in s[1..] by {
          forall j | 0 <= j < |s| - 1 ensures s[1..][j] != x {
            assert s[1..][j] == s[j + 1];
          }
        }
      }
    }
  }

  /** A shuffle of a list without repeats has none. */
  lemma {:induction false} NoDupPermutation<T>(s: seq<T>, r: seq<T>)
    requires NoDup(s) && multiset(r) == multiset(s)
    ensures NoDup(r)
  {
    forall p, q | 0 <= p < q < |r| ensures r[p] != r[q] {
      if r[p] == r[q] {
        Booking.TwiceCounted(r, p, q);
        NoDupOnce(s, r[p]);
      }
    }
  }

  /** The roster a show books from. */
  function Roster(u: Universe, showId: Id): set<Id>
    reads u`employment, u`shows, u`currentWeek
    requires showId in u.shows
  {
    EmployedWorkers(u.employment, u.shows[showId].fedId, Some(u.shows[showId].week), u.currentWeek)
  }

  /** Legacy `ensure_card`. A show that already has a match is left alone.
      Otherwise the ids of the roster employed for the show's week are
      shuffled into `pool` and the popping loop books PairCount(|pool|)
      matches: two different workers each, none in two matches, orders
      1, 2, ... The `used` filter of the source removes nothing here: it
      only matters for a show with matches, which is not booked. */
  method EnsureCard(u: Universe, showId: Id, shuffle: nat -> nat) returns (created: seq<Id>, pool: seq<Id>)
    requires u.Valid() && showId in u.shows
    modifies u`matches, u`nextId
    ensures u.Valid()
    ensures NoDup(pool) && forall v :: v in pool <==> v in Roster(u, showId)
    ensures Booking.HasCard(old(u.matches), showId) ==>
      created == [] && u.matches == old(u.matches) && u.nextId == old(u.nextId)
    ensures !Booking.HasCard(old(u.matches), showId) ==> |created| == PairCount(|pool|)
    ensures NoDup(created) && forall c :: c in created ==> c !in old(u.matches)
    ensures forall m :: m in u.matches <==> m in old(u.matches) || m in created
    ensures forall m :: m in old(u.matches) ==> u.matches[m] == old(u.matches)[m]
    ensures PairsStored(u.matches, created, showId, pool)
    ensures Booking.OtherShowsKept(old(u.matches), u.matches, showId)
  {
    var roster := Roster(u, showId);
    var rosterIds := Booking.ListIds(roster);
    assert forall v :: v in roster ==> v in u.workers;
    pool := rosterIds;
    if Booking.HasCard(u.matches, showId) {
      created := [];
      return;
    }
    pool := Booking.Shuffle(rosterIds, shuffle);
    NoDupPermutation(rosterIds, pool);
    assert forall v :: v in pool <==> v in multiset(rosterIds);
    var pairs := PopPairs(pool);
    var recs := PairRecords(showId, pairs);
    PairsFit(u.shows, u.workers, showId, pool, pairs, roster);
    ghost var before := u.matches;
    created := StoreAll(u, recs);
    PairsBooked(before, u.matches, created, showId, pool, pairs);
  }

  /** The records of the popped pairs fit the store. */
  lemma {:induction false} PairsFit(shows: map<Id, Show>, workers: map<Id, Worker>, showId: Id, pool: seq<Id>,
                                    pairs: seq<(Id, Id)>, roster: set<Id>)
    requires showId in shows && NoDup(pool)
    requires forall v :: v in pool <==> v in roster
    requires forall v :: v in roster ==> v in workers
    requires 2 * |pairs| <= |pool| && forall k :: 0 <= k < |pairs| ==> pairs[k] == Popped(pool, k)
    ensures forall i :: 0 <= i < |pairs| ==> MatchFits(PairRecords(showId, pairs)[i], shows, workers)
  {
    var recs := PairRecords(showId, pairs);
    var n := |pool|;
    forall i | 0 <= i < |recs| ensures MatchFits(recs[i], shows, workers) {
      var ps := recs[i].participants;
      assert ps == [pool[n - 1 - 2 * i], pool[n - 2 - 2 * i]];
      assert ps[0] != ps[1];
      assert pool[n - 1 - 2 * i] in pool && pool[n - 2 - 2 * i] in pool;
      assert forall p :: p in ps ==> p in workers;
      assert Resolvable(recs[i]);
    }
  }

  /** Storing the records of the popped pairs leaves them in the store, in
      order, and touches no other show's matches. */
  lemma {:induction false} PairsBooked(before: map<Id, Match>, after: map<Id, Match>, created: seq<Id>, showId: Id,
                                       pool: seq<Id>, pairs: seq<(Id, Id)>)
    requires 2 * |pairs| <= |pool| && forall k :: 0 <= k < |pairs| ==> pairs[k] == Popped(pool, k)
    requires |created| == |pairs|
    requires forall m :: m in after <==> m in before || m in created
    requires forall m :: m in before ==> after[m] == before[m]
    requires forall i :: 0 <= i < |pairs| ==> after[created[i]] == PairRecords(showId, pairs)[i]
    ensures PairsStored(after, created, showId, pool)
    ensures Booking.OtherShowsKept(before, after, showId)
  {
  }

  // ------------------------------------------------------------ run_match

  /** What legacy `run_match` decides: the resolver's teamless rule for
      every match, whatever team data the record carries. */
  function Decision(m: Match, workers: map<Id, Worker>, showName: string, style: Style, d: Engine.MatchDraws)
    : (r: Result<Engine.Outcome>)
    requires forall p :: p in m.participants ==> p in workers
    ensures m.teams == [] ==> r == Engine.Resolution(m, workers, showName, style, d)
  {
    Engine.Resolution(m.(teams := []), workers, showName, style, d)
  }

  /** The legacy rules: a match is canceled exactly on the injury rule
      (mma or hardcore, roll below 0.05); otherwise it fails exactly when
      no two participants differ, and else the winner is a highest scorer,
      the loser a different participant scoring highest among the rest,
      the method one of the four and the duration within [180, 1200]. */
  lemma DecisionRules(m: Match, workers: map<Id, Worker>, showName: string, style: Style, d: Engine.MatchDraws)
    requires Engine.DrawsOk(d) && forall p :: p in m.participants ==> p in workers
    ensures var r := Decision(m, workers, showName, style, d);
      (r.Ok? && r.value.result.Canceled?) <==> d.cancelRoll < 0.05 && style in {Mma, Hardcore}
    ensures Decision(m, workers, showName, style, d).Err? <==>
      !Engine.CancelDrawn(style, d) &&
      forall i, j :: 0 <= i < j < |m.participants| ==> m.participants[i] == m.participants[j]
    ensures var r := Decision(m, workers, showName, style, d);
      var ps := m.participants;
      var s := Engine.SoloScores(ps, workers, style, d);
      r.Ok? && !Engine.CancelDrawn(style, d) ==>
        var res := r.value.result;
        && res.Decided? && |res.winners| == 1 && |res.losers| == 1
        && res.winners[0] in ps && res.losers[0] in ps && res.winners[0] != res.losers[0]
        && (exists i :: 0 <= i < |ps| && ps[i] == res.winners[0] && forall j :: 0 <= j < |ps| ==> s[j] <= s[i])
        && (exists i :: 0 <= i < |ps| && ps[i] == res.losers[0]
              && forall j :: 0 <= j < |ps| && ps[j] != res.winners[0] ==> s[j] <= s[i])
        && res.finish in Engine.Methods
        && 180 <= res.timeS <= 1200
  {
    var m' := m.(teams := []);
    assert Engine.Staffed(m', workers);
    Engine.CancelRule(m', workers, showName, style, d);
    Engine.ResolutionDefined(m', workers, showName, style, d);
    if !Engine.CancelDrawn(style, d) && Engine.Resolution(m', workers, showName, style, d).Ok? {
      Engine.SoloDecision(m', workers, showName, style, d);
    }
  }

  /** Writing an outcome into a match does not change its decision. */
  lemma {:induction false} DecidedAlike(m: Match, o: Engine.Outcome, workers: map<Id, Worker>, showName: string,
                                        style: Style, d: Engine.MatchDraws)
    requires forall p :: p in m.participants ==> p in workers
    ensures forall p :: p in Engine.Resolved(m, o).participants ==> p in workers
    ensures Decision(Engine.Resolved(m, o), workers, showName, style, d) == Decision(m, workers, showName, style, d)
  {
    assert Engine.Resolved(m, o).(teams := []) == Engine.Resolved(m.(teams := []), o);
    Engine.ResolvedResolvesAlike(m.(teams := []), o, workers, showName, style, d);
  }

  /** Legacy `run_match`: the match gets the outcome Decision gives it, one
      note goes on the ticker, and nothing else changes. */
  method RunMatch(u: Universe, mid: Id, d: Engine.MatchDraws) returns (o: Engine.Outcome)
    requires u.Valid() && mid in u.matches
    modifies u`matches, u`ticker
    ensures u.Valid()
    ensures var m := old(u.matches[mid]);
      var show := u.shows[m.showId];
      && (forall p :: p in m.participants ==> p in u.workers)
      && Decision(m, u.workers, show.name, u.federations[show.fedId].style, d) == Ok(o)
    ensures u.matches == old(u.matches)[mid := Engine.Resolved(old(u.matches[mid]), o)]
    ensures u.ticker == [Engine.Stamp(o.note, u.currentWeek)] + old(u.ticker)
  {
    var m := u.matches[mid];
    var show := u.shows[m.showId];
    var style := u.federations[show.fedId].style;
    assert MatchFits(m, u.shows, u.workers);
    var solo := m.(teams := []);
    assert Engine.Staffed(solo, u.workers) && Resolvable(solo);
    o := Engine.Decide(solo, u.workers, show.name, style, d);
    u.matches := u.matches[mid := Engine.Resolved(m, o)];
    assert MatchFits(Engine.Resolved(m, o), u.shows, u.workers);
    u.AddTicker(o.note);
  }

  // ------------------------------------------------------------ run_card

  /** The first `|outs|` matches of `ran`: match `ran[t]` of `before` is
      decided with draws `matches(t)` as `outs[t]`, and `after` holds that
      outcome written into it. */
  ghost predicate DecidedAs(before: map<Id, Match>, after: map<Id, Match>, workers: map<Id, Worker>, name: string,
                            style: Style, ran: seq<Id>, outs: seq<Engine.Outcome>, d: Engine.ShowDraws)
  {
    && |outs| <= |ran|
    && forall t :: 0 <= t < |outs| ==>
      && ran[t] in before && ran[t] in after
      && (forall p :: p in before[ran[t]].participants ==> p in workers)
      && Decision(before[ran[t]], workers, name, style, d.matches(t)) == Ok(outs[t])
      && after[ran[t]] == Engine.Resolved(before[ran[t]], outs[t])
  }

  /** Every match of `ran` holds the outcome its decision gives, with draws
      `matches(t)` for the t-th. */
  ghost predicate Decided(ms: map<Id, Match>, workers: map<Id, Worker>, name: string, style: Style,
                          ran: seq<Id>, outs: seq<Engine.Outcome>, d: Engine.ShowDraws)
  {
    && Engine.Posted(ms, ran, outs)
    && forall t :: 0 <= t < |ran| ==>
      && (forall p :: p in ms[ran[t]].participants ==> p in workers)
      && Decision(ms[ran[t]], workers, name, style, d.matches(t)) == Ok(outs[t])
  }

  lemma {:induction false} DecidedAsStep(before: map<Id, Match>, after: map<Id, Match>, workers: map<Id, Worker>,
                                         name: string, style: Style, ran: seq<Id>, outs: seq<Engine.Outcome>,
                                         d: Engine.ShowDraws, o: Engine.Outcome)
    requires |outs| < |ran| && NoDup(ran) && DecidedAs(before, after, workers, name, style, ran, outs, d)
    requires ran[|outs|] in before && forall p :: p in before[ran[|outs|]].participants ==> p in workers
    requires Decision(before[ran[|outs|]], workers, name, style, d.matches(|outs|)) == Ok(o)
    ensures DecidedAs(before, after[ran[|outs|] := Engine.Resolved(before[ran[|outs|]], o)], workers, name, style,
                      ran, outs + [o], d)
  {
    var i := |outs|;
    forall t | 0 <= t < i ensures ran[t] != ran[i] {
    }
  }

  lemma {:induction false} DecidedAtEnd(before: map<Id, Match>, after: map<Id, Match>, workers: map<Id, Worker>,
                                        name: string, style: Style, ran: seq<Id>, outs: seq<Engine.Outcome>,
                                        d: Engine.ShowDraws)
    requires |outs| == |ran| && DecidedAs(before, after, workers, name, style, ran, outs, d)
    ensures Decided(after, workers, name, style, ran, outs, d)
  {
    forall t | 0 <= t < |ran|
      ensures && (forall p :: p in after[ran[t]].participants ==> p in workers)
              && Decision(after[ran[t]], workers, name, style, d.matches(t)) == Ok(outs[t])
    {
      DecidedAlike(before[ran[t]], outs[t], workers, name, style, d.matches(t));
    }
  }

  /** One pass of the card loop: decide match `ran[|outs|]`. */
  method RunNext(u: Universe, showId: Id, ran: seq<Id>, outs: seq<Engine.Outcome>, d: Engine.ShowDraws,
                 ghost ms0: map<Id, Match>, ghost tk0: seq<Event>) returns (outs': seq<Engine.Outcome>)
    requires u.Valid() && showId in u.shows && NoDup(ran) && |outs| < |ran|
    requires forall x :: x in ran ==> x in ms0 && ms0[x].showId == showId
    requires Engine.Untouched(ms0, u.matches, ran, |outs|)
    requires DecidedAs(ms0, u.matches, u.workers, u.shows[showId].name,
                       u.federations[u.shows[showId].fedId].style, ran, outs, d)
    requires Engine.Pushed(u.ticker, tk0, outs, u.currentWeek)
    modifies u`matches, u`ticker
    ensures u.Valid() && |outs'| == |outs| + 1
    ensures Engine.Untouched(ms0, u.matches, ran, |outs'|)
    ensures DecidedAs(ms0, u.matches, u.workers, u.shows[showId].name,
                      u.federations[u.shows[showId].fedId].style, ran, outs', d)
    ensures Engine.Pushed(u.ticker, tk0, outs', u.currentWeek)
  {
    var i := |outs|;
    var x := ran[i];
    assert x in ran;
    ghost var before := u.matches;
    ghost var tk := u.ticker;
    var o := RunMatch(u, x, d.matches(i));
    DecidedAsStep(ms0, before, u.workers, u.shows[showId].name, u.federations[u.shows[showId].fedId].style,
                  ran, outs, d, o);
    Engine.UntouchedStep(ms0, before, ran, i, Engine.Resolved(ms0[x], o));
    Engine.PushedStep(tk, tk0, outs, o, u.currentWeek);
    outs' := outs + [o];
  }

  /** The match loop of legacy `run_card`: the matches `ran` of show
      `showId`, one after the other, match i with draws `matches(i)`. */
  method RunInOrder(u: Universe, showId: Id, ran: seq<Id>, d: Engine.ShowDraws) returns (outs: seq<Engine.Outcome>)
    requires u.Valid() && showId in u.shows && NoDup(ran)
    requires forall x :: x in ran ==> x in u.matches && u.matches[x].showId == showId
    modifies u`matches, u`ticker
    ensures u.Valid()
    ensures forall x :: x in u.matches <==> x in old(u.matches)
    ensures forall x :: x in old(u.matches) && x !in ran ==> u.matches[x] == old(u.matches)[x]
    ensures |outs| == |ran|
    ensures DecidedAs(old(u.matches), u.matches, u.workers, u.shows[showId].name,
                      u.federations[u.shows[showId].fedId].style, ran, outs, d)
    ensures Engine.Pushed(u.ticker, old(u.ticker), outs, u.currentWeek)
  {
    outs := [];
    while |outs| < |ran|
      invariant u.Valid() && |outs| <= |ran|
      invariant Engine.Untouched(old(u.matches), u.matches, ran, |outs|)
      invariant DecidedAs(old(u.matches), u.matches, u.workers, u.shows[showId].name,
                          u.federations[u.shows[showId].fedId].style, ran, outs, d)
      invariant Engine.Pushed(u.ticker, old(u.ticker), outs, u.currentWeek)
      decreases |ran| - |outs|
    {
      outs := RunNext(u, showId, ran, outs, d, old(u.matches), old(u.ticker));
    }
  }

  /** What booking contributes to a legacy run of show `showId` from the
      match table `before`: a show that had matches runs exactly those and
      books nothing; otherwise the matches run are exactly the `created`
      ones, PairCount of the roster's size. */
  ghost predicate PairsRun(before: map<Id, Match>, showId: Id, roster: set<Id>, ran: seq<Id>, created: seq<Id>) {
    && (Booking.HasCard(before, showId) ==> created == [] && Engine.InCardOrder(before, showId, ran))
    && (!Booking.HasCard(before, showId) ==>
          && (forall x :: x in ran <==> x in created)
          && |ran| == |created| == PairCount(|roster|))
  }

  /** Legacy `run_card`. The card is booked if missing: a show without
      matches runs exactly the `created` matches, PairCount of its roster's
      size, and a show with matches runs those it had. `ran` is every match
      of the show in card order, match i decided with draws `matches(i)`
      into `outs[i]` and its note pushed in that order; matches of other
      shows are untouched. An empty card logs a booking update first. Either
      way the show ends completed, with a completion event on top. */
  method RunCard(u: Universe, showId: Id, d: Engine.ShowDraws)
    returns (ran: seq<Id>, outs: seq<Engine.Outcome>, created: seq<Id>)
    requires u.Valid() && showId in u.shows
    modifies u`matches, u`nextId, u`ticker, u`shows
    ensures u.Valid()
    ensures PairsRun(old(u.matches), showId, EmployedWorkers(u.employment, old(u.shows)[showId].fedId,
                                                             Some(old(u.shows)[showId].week), u.currentWeek),
                     ran, created)
    ensures u.currentWeek == old(u.currentWeek) && u.federations == old(u.federations)
    ensures u.workers == old(u.workers) && u.employment == old(u.employment)
    ensures u.shows == old(u.shows)[showId := old(u.shows)[showId].(status := Completed)]
    ensures Engine.InCardOrder(u.matches, showId, ran)
    ensures Booking.OtherShowsKept(old(u.matches), u.matches, showId)
    ensures Decided(u.matches, u.workers, old(u.shows)[showId].name,
                    u.federations[old(u.shows)[showId].fedId].style, ran, outs, d)
    ensures var name := old(u.shows)[showId].name;
      var first := if ran == [] then [Event(BookingUpdate, "No matches available for " + name, 2, u.currentWeek)]
                   else [];
      && |u.ticker| == |old(u.ticker)| + |first| + |ran| + 1
      && u.ticker[0] == Event(ShowCompleted, "Show completed: " + name, 2, u.currentWeek)
      && Engine.Pushed(u.ticker[1..], first + old(u.ticker), outs, u.currentWeek)
    ensures Engine.Extends(u.ticker, old(u.ticker))
  {
    ghost var roster := Roster(u, showId);
    var pool;
    created, pool := EnsureCard(u, showId, d.booking.shuffle);
    assert u.currentWeek == old(u.currentWeek) && u.federations == old(u.federations);
    assert u.workers == old(u.workers) && u.employment == old(u.employment) && u.shows == old(u.shows);
    ghost var m1 := u.matches;
    ran, outs := RunBooked(u, showId, d);
    Engine.KeptTwice(old(u.matches), m1, u.matches, showId);
    if !Booking.HasCard(old(u.matches), showId) {
      NewPairsRun(old(u.matches), m1, created, showId, pool, roster, ran);
    }
  }

  /** On a show that had no card, the matches run are exactly the popped
      pairs, PairCount of the roster's size. */
  lemma {:induction false} NewPairsRun(before: map<Id, Match>, m1: map<Id, Match>, created: seq<Id>, showId: Id,
                                       pool: seq<Id>, roster: set<Id>, ran: seq<Id>)
    requires !Booking.HasCard(before, showId)
    requires NoDup(pool) && (forall v :: v in pool <==> v in roster) && |created| == PairCount(|pool|)
    requires NoDup(created) && PairsStored(m1, created, showId, pool)
    requires forall m :: m in m1 <==> m in before || m in created
    requires forall m :: m in before ==> m1[m] == before[m]
    requires Engine.InCardOrder(m1, showId, ran) && NoDup(ran)
    ensures (forall x :: x in ran <==> x in created) && |ran| == |created| == PairCount(|roster|)
  {
    PairsApart(m1, created, showId, pool);
    Engine.NewCardRuns(before, m1, created, showId, ran);
    NoDupCard(pool, roster);
  }

  /** Legacy `run_card` once the booking step is done. */
  method RunBooked(u: Universe, showId: Id, d: Engine.ShowDraws) returns (ran: seq<Id>, outs: seq<Engine.Outcome>)
    requires u.Valid() && showId in u.shows
    modifies u`matches, u`ticker, u`shows
    ensures u.Valid()
    ensures u.shows == old(u.shows)[showId := old(u.shows)[showId].(status := Completed)]
    ensures Engine.InCardOrder(old(u.matches), showId, ran) && NoDup(ran)
    ensures Engine.InCardOrder(u.matches, showId, ran)
    ensures Booking.OtherShowsKept(old(u.matches), u.matches, showId)
    ensures Decided(u.matches, u.workers, old(u.shows)[showId].name,
                    u.federations[old(u.shows)[showId].fedId].style, ran, outs, d)
    ensures var name := old(u.shows)[showId].name;
      var first := if ran == [] then [Event(BookingUpdate, "No matches available for " + name, 2, u.currentWeek)]
                   else [];
      && |u.ticker| == |old(u.ticker)| + |first| + |ran| + 1
      && u.ticker[0] == Event(ShowCompleted, "Show completed: " + name, 2, u.currentWeek)
      && Engine.Pushed(u.ticker[1..], first + old(u.ticker), outs, u.currentWeek)
    ensures Engine.Extends(u.ticker, old(u.ticker))
  {
    var show := u.shows[showId];
    ran := Engine.CardOrder(u.matches, showId);
    ghost var first := [];
    if ran == [] {
      u.AddTicker(Note(BookingUpdate, "No matches available for " + show.name, 2));
      first := [u.ticker[0]];
    }
    outs := CloseCard(u, showId, ran, d);
    Engine.PushedExtends(u.ticker, first, old(u.ticker), outs, u.currentWeek);
  }

  /** Runs the card `ran` of show `showId` and completes the show. */
  method CloseCard(u: Universe, showId: Id, ran: seq<Id>, d: Engine.ShowDraws) returns (outs: seq<Engine.Outcome>)
    requires u.Valid() && showId in u.shows && NoDup(ran) && Engine.InCardOrder(u.matches, showId, ran)
    modifies u`matches, u`ticker, u`shows
    ensures u.Valid()
    ensures u.shows == old(u.shows)[showId := old(u.shows)[showId].(status := Completed)]
    ensures Engine.InCardOrder(u.matches, showId, ran)
    ensures Booking.OtherShowsKept(old(u.matches), u.matches, showId)
    ensures Decided(u.matches, u.workers, old(u.shows)[showId].name,
                    u.federations[old(u.shows)[showId].fedId].style, ran, outs, d)
    ensures |u.ticker| == |old(u.ticker)| + |ran| + 1
    ensures u.ticker[0] == Event(ShowCompleted, "Show completed: " + old(u.shows)[showId].name, 2, u.currentWeek)
    ensures Engine.Pushed(u.ticker[1..], old(u.ticker), outs, u.currentWeek)
  {
    var show := u.shows[showId];
    outs := PlayCard(u, showId, ran, d);
    ghost var tk := u.ticker;
    u.SetShowStatus(showId, Completed);
    u.AddTicker(Note(ShowCompleted, "Show completed: " + show.name, 2));
    assert u.ticker[1..] == tk;
  }

  /** Runs the card `ran` of show `showId`: the loop and what it leaves. */
  method PlayCard(u: Universe, showId: Id, ran: seq<Id>, d: Engine.ShowDraws) returns (outs: seq<Engine.Outcome>)
    requires u.Valid() && showId in u.shows && NoDup(ran) && Engine.InCardOrder(u.matches, showId, ran)
    modifies u`matches, u`ticker
    ensures u.Valid()
    ensures Engine.InCardOrder(u.matches, showId, ran)
    ensures Booking.OtherShowsKept(old(u.matches), u.matches, showId)
    ensures Decided(u.matches, u.workers, u.shows[showId].name, u.federations[u.shows[showId].fedId].style,
                    ran, outs, d)
    ensures Engine.Pushed(u.ticker, old(u.ticker), outs, u.currentWeek)
  {
    var show := u.shows[showId];
    var style := u.federations[show.fedId].style;
    outs := RunInOrder(u, showId, ran, d);
    DecidedAtEnd(old(u.matches), u.matches, u.workers, show.name, style, ran, outs, d);
    Engine.OrderKept(old(u.matches), u.matches, showId, ran);
    Engine.RunKeepsOthers(old(u.matches), u.matches, showId, ran);
  }

  // ------------------------------------------------------------ run_all_cards_this_week

  /** The shows of `done` are completed, every other show is as it was. */
  ghost predicate Completes(shows0: map<Id, Show>, shows: map<Id, Show>, done: set<Id>) {
    && shows.Keys == shows0.Keys
    && forall s :: s in shows0 ==> shows[s] == if s in done then shows0[s].(status := Completed) else shows0[s]
  }

  /** The week loop after `n` passes: the first `n` shows of `todays` (the
      set `done`) are completed, matches of other shows are kept, and
      federations move as `FedsKept` allows. */
  ghost predicate Progress(ms0: map<Id, Match>, shows0: map<Id, Show>, feds0: map<Id, Federation>,
                           ms: map<Id, Match>, shows: map<Id, Show>, feds: map<Id, Federation>,
                           todays: seq<Id>, done: set<Id>, n: nat)
  {
    && Engine.DoneFirst(todays, done, n)
    && Completes(shows0, shows, done)
    && Engine.KeptExcept(ms0, ms, done)
    && Engine.FedsKept(shows0, feds0, feds, done, todays, n)
  }

  lemma {:induction false} CompletesStep(shows0: map<Id, Show>, shows: map<Id, Show>, done: set<Id>, t: Id)
    requires Completes(shows0, shows, done) && t in shows0 && t !in done
    ensures Completes(shows0, shows[t := shows[t].(status := Completed)], done + {t})
  {
  }

  lemma {:induction false} ProgressStep(ms0: map<Id, Match>, shows0: map<Id, Show>, feds0: map<Id, Federation>,
                                        ms: map<Id, Match>, shows: map<Id, Show>, feds: map<Id, Federation>,
                                        ms': map<Id, Match>, feds': map<Id, Federation>,
                                        todays: seq<Id>, done: set<Id>, n: nat, d: Engine.ShowDraws)
    requires Ascending(todays) && n < |todays|
    requires forall s :: s in todays ==> s in shows0
    requires forall s :: s in shows0 ==> shows0[s].fedId in feds0
    requires Progress(ms0, shows0, feds0, ms, shows, feds, todays, done, n)
    requires Booking.OtherShowsKept(ms, ms', todays[n])
    requires var f := shows0[todays[n]].fedId;
      feds' == feds[f := feds[f].(popularity := Engine.Nudge(feds[f].popularity, d.nudge))]
    ensures Progress(ms0, shows0, feds0, ms', shows[todays[n] := shows[todays[n]].(status := Completed)], feds',
                     todays, done + {todays[n]}, n + 1)
  {
    var t := todays[n];
    Engine.DoneFirstStep(todays, done, n);
    CompletesStep(shows0, shows, done, t);
    Engine.KeptExceptStep(ms0, ms, ms', done, t);
    Engine.FedsKeptStep(shows0, feds0, feds, feds', done, todays, n, d);
  }

  /** One pass of the week loop: run the card (its booking and decisions as
      `RunCard` states them) and nudge the federation's popularity by the
      show's draw. */
  method RunDueShow(u: Universe, t: Id, d: Engine.ShowDraws)
    returns (ran: seq<Id>, outs: seq<Engine.Outcome>, created: seq<Id>)
    requires u.Valid() && t in u.shows
    modifies u`matches, u`nextId, u`ticker, u`shows, u`federations
    ensures u.Valid()
    ensures PairsRun(old(u.matches), t, EmployedWorkers(u.employment, old(u.shows)[t].fedId,
                                                        Some(old(u.shows)[t].week), u.currentWeek),
                     ran, created)
    ensures Engine.InCardOrder(u.matches, t, ran)
    ensures Decided(u.matches, u.workers, old(u.shows)[t].name,
                    old(u.federations)[old(u.shows)[t].fedId].style, ran, outs, d)
    ensures u.currentWeek == old(u.currentWeek)
    ensures u.workers == old(u.workers) && u.employment == old(u.employment)
    ensures Booking.OtherShowsKept(old(u.matches), u.matches, t)
    ensures u.shows == old(u.shows)[t := old(u.shows)[t].(status := Completed)]
    ensures var f := old(u.shows)[t].fedId;
      u.federations == old(u.federations)[f := old(u.federations)[f].(
        popularity := Engine.Nudge(old(u.federations)[f].popularity, d.nudge))]
    ensures Engine.Extends(u.ticker, old(u.ticker))
  {
    // The nudge is written before the card runs: running a card neither
    // reads nor writes a popularity, so the end state, which the contract
    // states against the state on entry, is the one of either order.
    var fid := u.shows[t].fedId;
    u.SetPopularity(fid, Engine.Nudge(u.federations[fid].popularity, d.nudge));
    ran, outs, created := RunCard(u, t, d);
  }

  /** What a legacy week's run leaves behind: every show of `todays` is
      completed and no other show changes; matches of other shows are kept
      and every new match belongs to a show of `todays`; federations keep
      everything but their popularity, only those with a show today move,
      and those end within [0, 100]. */
  ghost predicate WeekRan(ms0: map<Id, Match>, shows0: map<Id, Show>, feds0: map<Id, Federation>,
                          ms: map<Id, Match>, shows: map<Id, Show>, feds: map<Id, Federation>, todays: seq<Id>)
    requires forall s :: s in todays ==> s in shows0
    requires forall s :: s in shows0 ==> shows0[s].fedId in feds0
  {
    && shows.Keys == shows0.Keys
    && (forall s :: s in shows0 ==> shows[s] == if s in todays then shows0[s].(status := Completed) else shows0[s])
    && (forall x :: x in ms0 && ms0[x].showId !in todays ==> x in ms && ms[x] == ms0[x])
    && (forall x :: x in ms && ms[x].showId !in todays ==> x in ms0)
    && feds.Keys == feds0.Keys
    && (forall f :: f in feds0 ==> feds[f] == feds0[f].(popularity := feds[f].popularity))
    && (forall f :: f in feds0 && (forall s :: s in todays ==> shows0[s].fedId != f) ==> feds[f] == feds0[f])
    && (forall i :: 0 <= i < |todays| ==> 0 <= feds[shows0[todays[i]].fedId].popularity <= 100)
  }

  lemma {:induction false} WeekRanAtEnd(ms0: map<Id, Match>, shows0: map<Id, Show>, feds0: map<Id, Federation>,
                                        ms: map<Id, Match>, shows: map<Id, Show>, feds: map<Id, Federation>,
                                        todays: seq<Id>, done: set<Id>)
    requires forall s :: s in todays ==> s in shows0
    requires forall s :: s in shows0 ==> shows0[s].fedId in feds0
    requires Progress(ms0, shows0, feds0, ms, shows, feds, todays, done, |todays|)
    ensures WeekRan(ms0, shows0, feds0, ms, shows, feds, todays)
  {
    assert forall s :: s in done <==> s in todays;
    forall f | f in feds0 && (forall s :: s in todays ==> shows0[s].fedId != f) ensures feds[f] == feds0[f] {
      assert forall s :: s in done && s in shows0 ==> shows0[s].fedId != f;
    }
  }

  /** Legacy `run_all_cards_this_week`: the shows of the current week still
      upcoming run in insertion order, show i with draws `draws(i)`, each
      followed by its federation's popularity nudge (`WeekRan`). With no
      show due, a schedule note is the only change. */
  method RunAllCardsThisWeek(u: Universe, draws: nat -> Engine.ShowDraws) returns (todays: seq<Id>)
    requires u.Valid()
    modifies u`matches, u`nextId, u`ticker, u`shows, u`federations
    ensures u.Valid()
    ensures u.currentWeek == old(u.currentWeek)
    ensures u.workers == old(u.workers) && u.employment == old(u.employment)
    ensures forall s :: s in todays <==>
      s in old(u.shows) && old(u.shows)[s].week == old(u.currentWeek) && old(u.shows)[s].status == Upcoming
    ensures Ascending(todays)
    ensures WeekRan(old(u.matches), old(u.shows), old(u.federations), u.matches, u.shows, u.federations, todays)
    ensures Engine.Extends(u.ticker, old(u.ticker))
    ensures todays == [] ==>
      && u.matches == old(u.matches) && u.shows == old(u.shows) && u.federations == old(u.federations)
      && u.ticker == [Event(ScheduleNote, "No shows scheduled for Week " + Text.IntToString(u.currentWeek), 1,
                            u.currentWeek)] + old(u.ticker)
  {
    var wk := u.currentWeek;
    todays := Engine.ShowsDue(u.shows, u.nextId, wk);
    if todays == [] {
      u.AddTicker(Note(ScheduleNote, "No shows scheduled for Week " + Text.IntToString(wk), 1));
      return;
    }
    ghost var done: set<Id> := {};
    for i := 0 to |todays|
      invariant u.Valid() && u.currentWeek == wk
      invariant u.workers == old(u.workers) && u.employment == old(u.employment)
      invariant Progress(old(u.matches), old(u.shows), old(u.federations), u.matches, u.shows, u.federations,
                         todays, done, i)
      invariant Engine.Extends(u.ticker, old(u.ticker))
    {
      ghost var ms, shows, feds, tk := u.matches, u.shows, u.federations, u.ticker;
      assert todays[i] in todays;
      var ran, outs, created := RunDueShow(u, todays[i], draws(i));
      ProgressStep(old(u.matches), old(u.shows), old(u.federations), ms, shows, feds,
                   u.matches, u.federations, todays, done, i, draws(i));
      Engine.ExtendsTrans(u.ticker, tk, old(u.ticker));
      done := done + {todays[i]};
    }
    WeekRanAtEnd(old(u.matches), old(u.shows), old(u.federations), u.matches, u.shows, u.federations,
                 todays, done);
  }
}
