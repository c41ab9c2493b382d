/** The in-memory store: the universe state, the ticker, the roster query and
    the record-creating operations the engine relies on. */
module Store {
  import opened Models
  import Text

  /** `v` pulled into the range [lo, hi]. */
  function Clamp(v: int, lo: int, hi: int): (r: int)
    ensures lo <= hi ==> lo <= r <= hi
    ensures lo <= v <= hi ==> r == v
    ensures v < lo || hi < lo ==> r == lo
    ensures lo <= hi < v ==> r == hi
  {
    var m := if hi < v then hi else v;
    if lo < m then m else lo
  }

  /** The week a roster query is about: a missing week and week 0 both mean "now". */
  function EffectiveWeek(week: Option<int>, current: int): (w: int)
    ensures week == None || week == Some(0) ==> w == current
    ensures week.Some? && week.value != 0 ==> w == week.value
  {
    match week
    case None => current
    case Some(v) => if v == 0 then current else v
  }

  /** An employment record covers `week` at federation `fid`. */
  predicate Covers(e: Employment, fid: Id, week: int) {
    && e.fedId == fid
    && (e.endWeek.None? || e.endWeek.value >= week)
    && e.startWeek <= week
  }

  /** The ids of the workers some record of `emp` employs at `fid` in `week`:
      the set comprehension behind `fed_employed_workers`. */
  function ActiveIds(emp: seq<Employment>, fid: Id, week: int): (r: set<Id>)
    ensures forall w :: w in r <==>
      exists i :: 0 <= i < |emp| && emp[i].workerId == w && Covers(emp[i], fid, week)
    decreases |emp|
  {
    if emp == [] then {}
    else
      var rest := ActiveIds(emp[1..], fid, week);
      assert forall i :: 1 <= i < |emp| ==> emp[i] == emp[1..][i - 1];
      if Covers(emp[0], fid, week) then {emp[0].workerId} + rest else rest
  }

  /** `fed_employed_workers(fid, week)`, as the set of the employed workers' ids. */
  function EmployedWorkers(emp: seq<Employment>, fid: Id, week: Option<int>, current: int): set<Id> {
    ActiveIds(emp, fid, EffectiveWeek(week, current))
  }

  predicate DefaultIntergender(style: Style) {
    style == Hardcore || style == Lucha || style == SportsEnt
  }

  predicate DefaultTag(style: Style) {
    style == SportsEnt || style == Hardcore || style == Lucha
  }

  predicate DefaultTrios(style: Style) {
    style == Lucha
  }

  /** The record `create_fed` stores: every rule flag is present, taken from
      the explicit argument when one is given and from the style otherwise. */
  function NewFederation(
    name: string, style: Style, popularity: int, safety: int, liquidity: int, about: string,
    allowIntergender: Option<bool>, allowTag: Option<bool>, allowTrios: Option<bool>): (f: Federation)
    ensures f.name == name && f.style == style && f.popularity == popularity
    ensures f.safety == safety && f.liquidity == liquidity && f.about == about
    ensures f.allowIntergender == Some(if allowIntergender.Some? then allowIntergender.value
                                        else style in {Hardcore, Lucha, SportsEnt})
    ensures f.allowTag == Some(if allowTag.Some? then allowTag.value
                                else style in {SportsEnt, Hardcore, Lucha})
    ensures f.allowTrios == Some(if allowTrios.Some? then allowTrios.value else style == Lucha)
  {
    Federation(name, style, popularity, safety, liquidity, about,
               Some(allowIntergender.GetOr(DefaultIntergender(style))),
               Some(allowTag.GetOr(DefaultTag(style))),
               Some(allowTrios.GetOr(DefaultTrios(style))))
  }

  /** A whole universe as an imported document carries it. */
  datatype Snapshot = Snapshot(
    currentWeek: int, federations: map<Id, Federation>, workers: map<Id, Worker>,
    employment: seq<Employment>, shows: map<Id, Show>, matches: map<Id, Match>,
    ticker: seq<Event>)

  /** A decoded import document: either not a mapping at all, or a mapping
      with the given top-level keys, the keys of its "universe" entry (none
      when that entry is not a mapping), and contents that decode to
      `content`. */
  datatype Document = NotAMapping | Mapping(keys: set<string>, universeKeys: set<string>, content: Snapshot)

  /** The key check of `import_universe_json`. */
  predicate Importable(doc: Document) {
    doc.Mapping? && "universe" in doc.keys && "federations" in doc.keys
  }

  /** A match the resolver can decide without an IndexError: two or more
      teams, or no team data and two different participants. */
  predicate Resolvable(m: Match) {
    && |m.teams| != 1
    && exists i, j :: 0 <= i < j < |m.participants| && m.participants[i] != m.participants[j]
  }

  /** A stored match belongs to a known show, has a shape the resolver
      accepts, and names known workers only. */
  predicate MatchFits(m: Match, shows: map<Id, Show>, workers: map<Id, Worker>) {
    && m.showId in shows
    && Resolvable(m)
    && (forall p :: p in m.participants ==> p in workers)
    && (forall t, p :: t in m.teams && p in t ==> p in workers)
  }

  predicate NoDup<T(==)>(s: seq<T>) {
    forall i, j :: 0 <= i < j < |s| ==> s[i] != s[j]
  }

  /** A list without repeats holding exactly the members of `t` is as long
      as `t` is large. */
  lemma {:induction false} NoDupCard(s: seq<Id>, t: set<Id>)
    requires NoDup(s) && forall v :: v in s <==> v in t
    ensures |s| == |t|
    decreases |s|
  {
    if s == [] {
      assert forall v :: v !in t;
      assert t == {};
    } else {
      assert forall v :: v in s[1..] <==> v in t - {s[0]};
      NoDupCard(s[1..], t - {s[0]});
    }
  }

  /** Strictly increasing ids: the order a dict keyed by fresh ids iterates in. */
  predicate Ascending(ks: seq<Id>) {
    forall i, j :: 0 <= i < j < |ks| ==> ks[i] < ks[j]
  }

  /** The keys of `m` in insertion order, as ascending ids (every key is
      below `bound`, the next id to be handed out). */
  method KeysInOrder<V>(m: map<Id, V>, bound: Id) returns (ks: seq<Id>)
    requires forall k :: k in m ==> k < bound
    ensures forall k :: k in ks <==> k in m
    ensures Ascending(ks)
  {
    ks := [];
    for k := 0 to bound
      invariant forall x :: x in ks <==> x in m && x < k
      invariant Ascending(ks)
      invariant forall i :: 0 <= i < |ks| ==> ks[i] < k
    {
      if k in m {
        ks := ks + [k];
      }
    }
  }

  class Universe {
    var currentWeek: int
    /** Stands for `new_id`: every id handed out so far is below it. */
    var nextId: Id
    var federations: map<Id, Federation>
    var workers: map<Id, Worker>
    var employment: seq<Employment>
    var shows: map<Id, Show>
    var matches: map<Id, Match>
    /** Newest event first. */
    var ticker: seq<Event>

    /** Referential integrity (every id the engine looks up exists), match
        shapes the resolver accepts, and fresh ids. */
    ghost predicate Valid()
      reads this`federations, this`workers, this`employment, this`shows, this`matches, this`nextId
    {
      && (forall s :: s in shows ==> shows[s].fedId in federations)
      && (forall i :: 0 <= i < |employment| ==> employment[i].workerId in workers)
      && (forall m :: m in matches ==> MatchFits(matches[m], shows, workers))
      && (forall k :: k in federations ==> k < nextId)
      && (forall k :: k in workers ==> k < nextId)
      && (forall k :: k in shows ==> k < nextId)
      && (forall k :: k in matches ==> k < nextId)
    }

    /** The state `ss()` creates: week 1 and nothing in it. */
    constructor ()
      ensures Valid()
      ensures currentWeek == 1 && nextId == 0
      ensures federations == map[] && workers == map[] && employment == []
      ensures shows == map[] && matches == map[] && ticker == []
    {
      currentWeek := 1;
      nextId := 0;
      federations, workers, employment := map[], map[], [];
      shows, matches, ticker := map[], map[], [];
    }

    method NewId() returns (id: Id)
      modifies this`nextId
      ensures id == old(nextId) && nextId == id + 1
    {
      id := nextId;
      nextId := nextId + 1;
    }

    /** `add_ticker`: the new event goes in front, stamped with the current
        week; the older events stay behind it in their order. */
    method AddTicker(n: Note)
      modifies this`ticker
      ensures ticker == [Event(n.kind, n.headline, n.severity, currentWeek)] + old(ticker)
      ensures ticker[0].week == currentWeek && ticker[1..] == old(ticker)
    {
      ticker := [Event(n.kind, n.headline, n.severity, currentWeek)] + ticker;
    }

    /** Stores a new match under a fresh id. */
    method AddMatch(m: Match) returns (mid: Id)
      requires Valid() && MatchFits(m, shows, workers)
      modifies this`matches, this`nextId
      ensures Valid()
      ensures mid == old(nextId) && nextId == mid + 1 && mid !in old(matches)
      ensures matches == old(matches)[mid := m]
    {
      mid := NewId();
      matches := matches[mid := m];
    }

    /** Stores a new show under a fresh id. */
    method AddShow(s: Show) returns (sid: Id)
      requires Valid() && s.fedId in federations
      modifies this`shows, this`nextId
      ensures Valid()
      ensures sid == old(nextId) && nextId == sid + 1 && sid !in old(shows)
      ensures shows == old(shows)[sid := s]
    {
      sid := NewId();
      assert forall m :: m in matches ==> MatchFits(matches[m], shows[sid := s], workers);
      shows := shows[sid := s];
    }

    /** Writes a federation's popularity in place. */
    method SetPopularity(fid: Id, popularity: int)
      requires Valid() && fid in federations
      modifies this`federations
      ensures Valid()
      ensures federations == old(federations)[fid := old(federations)[fid].(popularity := popularity)]
    {
      federations := federations[fid := federations[fid].(popularity := popularity)];
    }

    /** Writes a show's status in place; nothing
        else about the show or the store changes. */
    method SetShowStatus(showId: Id, status: Status)
      requires Valid() && showId in shows
      modifies this`shows
      ensures Valid()
      ensures shows == old(shows)[showId := old(shows)[showId].(status := status)]
    {
      var s := shows[showId].(status := status);
      assert forall m :: m in matches ==> MatchFits(matches[m], shows[showId := s], workers);
      shows := shows[showId := s];
    }

    /** `create_fed`: stores the federation with its rule flags filled in. */
    method CreateFed(
      name: string, style: Style, popularity: int, safety: int, liquidity: int, about: string,
      allowIntergender: Option<bool>, allowTag: Option<bool>, allowTrios: Option<bool>)
      returns (fid: Id)
      requires Valid()
      modifies this`federations, this`nextId, this`ticker
      ensures Valid()
      ensures fid !in old(federations)
      ensures federations == old(federations)[fid := NewFederation(
        name, style, popularity, safety, liquidity, about, allowIntergender, allowTag, allowTrios)]
      ensures ticker == [Event(FedCreated, "Federation created: " + name, 1, currentWeek)] + old(ticker)
    {
      fid := NewId();
      federations := federations[fid := NewFederation(
        name, style, popularity, safety, liquidity, about, allowIntergender, allowTag, allowTrios)];
      AddTicker(Note(FedCreated, "Federation created: " + name, 1));
    }

    /** `employ_worker`: appends exactly one open-ended record; a missing
        start week means the current week. The worker and the federation must
        exist (the source looks up both names for its ticker line). */
    method EmployWorker(workerId: Id, fedId: Id, startWeek: Option<int>, masked: bool)
      requires Valid()
      requires workerId in workers && fedId in federations
      modifies this`employment, this`ticker
      ensures Valid()
      ensures employment == old(employment) +
        [Employment(workerId, fedId, startWeek.GetOr(currentWeek), None, masked)]
      ensures ticker == [Event(Employed, "Hired: " + workers[workerId].ringName + " → "
                                + federations[fedId].name, 2, currentWeek)] + old(ticker)
    {
      var start := if startWeek.None? then currentWeek else startWeek.value;
      employment := employment + [Employment(workerId, fedId, start, None, masked)];
      AddTicker(Note(Employed, "Hired: " + workers[workerId].ringName + " → "
                               + federations[fedId].name, 2));
    }

    /** `import_universe_json`: a document that is not a mapping, or lacks the
        "universe" or "federations" key, is refused and nothing changes.
        Otherwise the state is replaced wholesale before the import event is
        logged, and logging looks up the "ticker" list first and the
        universe's "current_week" second: when either is missing the call
        fails with that key error, the replaced state stays and no event is
        pushed. With both present the event goes on top of the imported
        ticker. */
    method ImportUniverse(doc: Document) returns (r: Result<()>)
      modifies this`currentWeek, this`federations, this`workers, this`employment,
               this`shows, this`matches, this`ticker
      ensures r.Ok? <==> Importable(doc) && "ticker" in doc.keys && "current_week" in doc.universeKeys
      ensures !Importable(doc) ==>
        && r == Err("Invalid universe JSON (missing keys).")
        && currentWeek == old(currentWeek) && federations == old(federations)
        && workers == old(workers) && employment == old(employment)
        && shows == old(shows) && matches == old(matches) && ticker == old(ticker)
      ensures Importable(doc) ==>
        && currentWeek == doc.content.currentWeek && federations == doc.content.federations
        && workers == doc.content.workers && employment == doc.content.employment
        && shows == doc.content.shows && matches == doc.content.matches
      ensures Importable(doc) && "ticker" !in doc.keys ==>
        r == Err("KeyError: 'ticker'") && ticker == doc.content.ticker
      ensures Importable(doc) && "ticker" in doc.keys && "current_week" !in doc.universeKeys ==>
        r == Err("KeyError: 'current_week'") && ticker == doc.content.ticker
      ensures Importable(doc) && "ticker" in doc.keys && "current_week" in doc.universeKeys ==>
        ticker == [Event(UniverseImport, "Universe imported", 1, currentWeek)] + doc.content.ticker
    {
      if !Importable(doc) {
        return Err("Invalid universe JSON (missing keys).");
      }
      var snap := doc.content;
      currentWeek, federations, workers := snap.currentWeek, snap.federations, snap.workers;
      employment, shows, matches, ticker := snap.employment, snap.shows, snap.matches, snap.ticker;
      if "ticker" !in doc.keys {
        return Err("KeyError: 'ticker'");
      }
      if "current_week" !in doc.universeKeys {
        return Err("KeyError: 'current_week'");
      }
      AddTicker(Note(UniverseImport, "Universe imported", 1));
      r := Ok(());
    }
  }

  // ------------------------------------------------------------ storing records

  /** The insertion loops of `ensure_card`: each record goes into the store
      under a fresh id, in order, and nothing already stored changes. */
  method StoreAll(u: Universe, recs: seq<Match>) returns (created: seq<Id>)
    requires u.Valid()
    requires forall i :: 0 <= i < |recs| ==> MatchFits(recs[i], u.shows, u.workers)
    modifies u`matches, u`nextId
    ensures u.Valid()
    ensures |created| == |recs| && NoDup(created)
    ensures forall c :: c in created ==> c !in old(u.matches)
    ensures forall m :: m in u.matches <==> m in old(u.matches) || m in created
    ensures forall m :: m in old(u.matches) ==> u.matches[m] == old(u.matches)[m]
    ensures forall i :: 0 <= i < |recs| ==> u.matches[created[i]] == recs[i]
  {
    ghost var n0 := u.nextId;
    created := [];
    for i := 0 to |recs|
      invariant |created| == i && u.nextId == n0 + i
      invariant forall t :: 0 <= t < i ==> created[t] == n0 + t
      invariant StoredFrom(old(u.matches), u.matches, n0, recs, i)
      invariant u.Valid()
    {
      ghost var ms := u.matches;
      var mid := u.AddMatch(recs[i]);
      StoredStep(old(u.matches), ms, n0, recs, i);
      created := created + [mid];
    }
    StoredEnd(old(u.matches), u.matches, n0, recs, created);
  }

  /** After `i` passes of StoreAll's loop: the store holds the old matches,
      unchanged, plus records 0 .. i-1 under ids n0 .. n0+i-1. */
  ghost predicate StoredFrom(before: map<Id, Match>, after: map<Id, Match>, n0: nat, recs: seq<Match>, i: nat) {
    && i <= |recs|
    && (forall m :: m in after <==> m in before || n0 <= m < n0 + i)
    && (forall m :: m in before ==> m in after && after[m] == before[m])
    && (forall t :: 0 <= t < i ==> n0 + t in after && after[n0 + t] == recs[t])
  }

  lemma {:induction false} StoredStep(before: map<Id, Match>, after: map<Id, Match>, n0: nat, recs: seq<Match>,
                                      i: nat)
    requires StoredFrom(before, after, n0, recs, i) && i < |recs|
    requires forall m :: m in before ==> m < n0
    ensures StoredFrom(before, after[n0 + i := recs[i]], n0, recs, i + 1)
  {
  }

  /** A run of consecutive fresh ids. */
  lemma {:induction false} CountedIds(ids: seq<Id>, n0: nat)
    requires forall t :: 0 <= t < |ids| ==> ids[t] == n0 + t
    ensures NoDup(ids)
    ensures forall m :: m in ids <==> n0 <= m < n0 + |ids|
  {
    forall m | n0 <= m < n0 + |ids| ensures m in ids {
      assert ids[m - n0] == m;
    }
  }

  lemma {:induction false} StoredEnd(before: map<Id, Match>, after: map<Id, Match>, n0: nat, recs: seq<Match>,
                                     created: seq<Id>)
    requires StoredFrom(before, after, n0, recs, |recs|)
    requires |created| == |recs| && forall t :: 0 <= t < |recs| ==> created[t] == n0 + t
    requires forall m :: m in before ==> m < n0
    ensures NoDup(created)
    ensures forall c :: c in created ==> c !in before
    ensures forall m :: m in after <==> m in before || m in created
    ensures forall m :: m in before ==> after[m] == before[m]
    ensures forall i :: 0 <= i < |recs| ==> after[created[i]] == recs[i]
  {
    CountedIds(created, n0);
    forall i | 0 <= i < |recs| ensures after[created[i]] == recs[i] {
      assert created[i] == n0 + i;
    }
  }
}
