/** Match resolution and show running: `run_match`, `run_card` and
    `run_all_cards_this_week`. */
module Engine {
  import opened Models
  import opened Store
  import opened Booking
  import Text

  /** The finishing methods `run_match` chooses from. */
  const Methods: seq<string> := ["pinfall", "submission", "KO/TKO", "judges' decision"]

  /** The draws one match takes: the cancellation roll in [0, 1); the form
      swing of member j of team t (team 0 for the teamless fallback); the
      perturbation of team t; the method choice; the duration, drawn from
      [240, 1500] for team matches and from [180, 1200] for the fallback. */
  datatype MatchDraws = MatchDraws(
    cancelRoll: real, form: (nat, nat) -> int, perturb: nat -> real,
    methodPick: nat, teamTime: nat, soloTime: nat)

  ghost predicate DrawsOk(d: MatchDraws) {
    && 0.0 <= d.cancelRoll < 1.0
    && (forall t, j :: -10 <= d.form(t, j) <= 10)
    && (forall t :: -3.0 <= d.perturb(t) <= 3.0)
    && 240 <= d.teamTime <= 1500
    && 180 <= d.soloTime <= 1200
  }

  /** Every id the match names is a known worker. */
  predicate Staffed(m: Match, workers: map<Id, Worker>) {
    && (forall p :: p in m.participants ==> p in workers)
    && (forall t, p :: 0 <= t < |m.teams| && p in m.teams[t] ==> p in workers)
  }

  /** What resolving a match writes: the result, the recap and the ticker note. */
  datatype Outcome = Outcome(result: MatchResult, recap: string, note: Note)

  /** The injury rule: only mma and hardcore federations, only on a roll below 0.05. */
  predicate CancelDrawn(style: Style, d: MatchDraws) {
    d.cancelRoll < 0.05 && (style == Mma || style == Hardcore)
  }

  function CancelOutcome(showName: string): Outcome {
    Outcome(Canceled("Injury in camp"), "Bout canceled due to injury.",
            Note(MatchCanceled, "Match canceled on " + showName, 3))
  }

  function Names(ids: seq<Id>, workers: map<Id, Worker>): seq<string>
    requires forall v :: v in ids ==> v in workers
  {
    seq(|ids|, i requires 0 <= i < |ids| => workers[ids[i]].ringName)
  }

  /** A decided match: the recap and the ticker headline name the two sides. */
  function DecidedOutcome(winners: seq<Id>, losers: seq<Id>, workers: map<Id, Worker>,
                          finish: string, time: nat): Outcome
    requires forall v :: v in winners ==> v in workers
    requires forall v :: v in losers ==> v in workers
  {
    var wn := Text.Join(Names(winners, workers), ", ");
    var ln := Text.Join(Names(losers, workers), ", ");
    Outcome(Decided(winners, losers, finish, time),
            wn + " defeated " + ln + " by " + finish + " at " + Text.NatToString(time) + "s.",
            Note(MatchResultPosted, wn + " def. " + ln + " by " + finish, 2))
  }

  // ------------------------------------------------------------ team scoring

  /** The star scores of the first n members of team t, added up. */
  function StarSum(team: seq<Id>, n: nat, workers: map<Id, Worker>, style: Style, d: MatchDraws, t: nat): real
    requires n <= |team|
    requires forall v :: v in team ==> v in workers
  {
    if n == 0 then 0.0
    else StarSum(team, n - 1, workers, style, d, t) + StarScore(workers[team[n - 1]], style, d.form(t, n - 1))
  }

  /** A team's score: the mean star score of its members (an empty team
      divides by one) plus its noise draw from [-3, 3]. */
  function TeamScore(team: seq<Id>, workers: map<Id, Worker>, style: Style, d: MatchDraws, t: nat): real
    requires forall v :: v in team ==> v in workers
  {
    var n := if |team| < 1 then 1 else |team|;
    StarSum(team, |team|, workers, style, d, t) / (n as real) + d.perturb(t)
  }

  /** All attributes in the 0..100 range the store's workers carry. */
  predicate Rated(w: Worker) {
    0 <= w.skill <= 100 && 0 <= w.charisma <= 100 && 0 <= w.prestige <= 100
  }

  lemma {:induction false} StarSumBounds(team: seq<Id>, n: nat, workers: map<Id, Worker>, style: Style,
                                         d: MatchDraws, t: nat)
    requires n <= |team| && DrawsOk(d)
    requires forall v :: v in team ==> v in workers && Rated(workers[v])
    ensures -10.0 * (n as real) <= StarSum(team, n, workers, style, d, t) <= 125.0 * (n as real)
  {
    if n > 0 {
      StarSumBounds(team, n - 1, workers, style, d, t);
      assert team[n - 1] in team;
    }
  }

  lemma {:induction false} MeanBounds(s: real, n: real, lo: real, hi: real)
    requires n >= 1.0 && lo * n <= s <= hi * n
    ensures lo <= s / n <= hi
  {
    var q := s / n;
    assert q * n == s;
    assert (q - lo) * n >= 0.0;
    assert (hi - q) * n >= 0.0;
  }

  /** A team score is a mean star score plus a perturbation in [-3, 3]: for
      workers rated 0..100 it lies in [-13, 128], and an empty team scores its
      perturbation alone. */
  lemma TeamScoreBounds(team: seq<Id>, workers: map<Id, Worker>, style: Style, d: MatchDraws, t: nat)
    requires DrawsOk(d)
    requires forall v :: v in team ==> v in workers && Rated(workers[v])
    ensures -13.0 <= TeamScore(team, workers, style, d, t) <= 128.0
    ensures team == [] ==> TeamScore(team, workers, style, d, t) == d.perturb(t)
  {
    MeanStarBounds(team, workers, style, d, t);
    assert -3.0 <= d.perturb(t) <= 3.0;
  }

  /** The mean star score of a team of rated workers lies in [-10, 125]; an
      empty team's star sum is zero. */
  lemma {:induction false} MeanStarBounds(team: seq<Id>, workers: map<Id, Worker>, style: Style, d: MatchDraws, t: nat)
    requires DrawsOk(d)
    requires forall v :: v in team ==> v in workers && Rated(workers[v])
    ensures var n := if |team| < 1 then 1 else |team|;
      -10.0 <= StarSum(team, |team|, workers, style, d, t) / (n as real) <= 125.0
    ensures team == [] ==> StarSum(team, |team|, workers, style, d, t) == 0.0
  {
    var s := StarSum(team, |team|, workers, style, d, t);
    var n := if |team| < 1 then 1 else |team|;
    StarSumBounds(team, |team|, workers, style, d, t);
    if team == [] {
      assert s == 0.0;
    }
    MeanBounds(s, n as real, -10.0, 125.0);
  }

  /** The scores of all teams, in order (the source scores every team but
      only compares the first two). */
  function TeamScores(teams: seq<seq<Id>>, workers: map<Id, Worker>, style: Style, d: MatchDraws): (s: seq<real>)
    requires forall t, p :: 0 <= t < |teams| && p in teams[t] ==> p in workers
    ensures |s| == |teams|
  {
    seq(|teams|, t requires 0 <= t < |teams| => TeamScore(teams[t], workers, style, d, t))
  }

  /** The scoring loop of `run_match`. */
  method ScoreTeams(teams: seq<seq<Id>>, workers: map<Id, Worker>, style: Style, d: MatchDraws)
    returns (scores: seq<real>)
    requires forall t, p :: 0 <= t < |teams| && p in teams[t] ==> p in workers
    ensures scores == TeamScores(teams, workers, style, d)
  {
    scores := [];
    for t := 0 to |teams|
      invariant scores == TeamScores(teams[..t], workers, style, d)
    {
      var team := teams[t];
      var sum := 0.0;
      for j := 0 to |team|
        invariant sum == StarSum(team, j, workers, style, d, t)
      {
        sum := sum + StarScore(workers[team[j]], style, d.form(t, j));
      }
      var n := if |team| < 1 then 1 else |team|;
      var s := sum / (n as real) + d.perturb(t);
      assert teams[..t + 1] == teams[..t] + [team];
      scores := scores + [s];
    }
    assert teams[..|teams|] == teams;
  }

  /** The winning side: the first on a tie or a higher score, else the second. */
  function WinIndex(scores: seq<real>): (i: nat)
    requires |scores| >= 2
    ensures i <= 1
    ensures i == 0 <==> scores[0] >= scores[1]
  {
    if scores[0] >= scores[1] then 0 else 1
  }

  // ------------------------------------------------------------ teamless fallback

  /** The star scores of the participants, in order. */
  function SoloScores(ps: seq<Id>, workers: map<Id, Worker>, style: Style, d: MatchDraws): (s: seq<real>)
    requires forall p :: p in ps ==> p in workers
    ensures |s| == |ps|
  {
    seq(|ps|, j requires 0 <= j < |ps| => StarScore(workers[ps[j]], style, d.form(0, j)))
  }

  /** The position the stable descending sort puts first among the entries
      whose id is not `skip`: a highest score, the earliest one on ties. */
  function Leader(s: seq<real>, ids: seq<Id>, skip: Option<Id>): (r: Option<nat>)
    requires |s| == |ids|
    ensures r.None? <==> forall j :: 0 <= j < |ids| ==> Some(ids[j]) == skip
    ensures r.Some? ==> r.value < |s| && Some(ids[r.value]) != skip
    ensures r.Some? ==> forall j :: 0 <= j < |s| && Some(ids[j]) != skip ==> s[j] <= s[r.value]
    ensures r.Some? ==> forall j :: 0 <= j < r.value && Some(ids[j]) != skip ==> s[j] < s[r.value]
    decreases |s|
  {
    if |s| == 0 then None
    else
      var k := |s| - 1;
      var rest := Leader(s[..k], ids[..k], skip);
      if Some(ids[k]) == skip then rest
      else if rest.None? || s[k] > s[rest.value] then Some(k)
      else rest
  }

  // ------------------------------------------------------------ resolution

  /** What `run_match` decides for match `m` of a show named `showName` at a
      federation of style `style`; `Err` where the source raises an
      IndexError (one team only, or no two different participants). */
  function Resolution(m: Match, workers: map<Id, Worker>, showName: string, style: Style, d: MatchDraws)
    : Result<Outcome>
    requires Staffed(m, workers)
  {
    if CancelDrawn(style, d) then Ok(CancelOutcome(showName))
    else if m.teams == [] then
      var s := SoloScores(m.participants, workers, style, d);
      var top := Leader(s, m.participants, None);
      if top.None? then Err("list index out of range")
      else
        var winner := m.participants[top.value];
        var second := Leader(s, m.participants, Some(winner));
        if second.None? then Err("list index out of range")
        else
          var loser := m.participants[second.value];
          Ok(DecidedOutcome([winner], [loser], workers, Methods[d.methodPick % 4], d.soloTime))
    else if |m.teams| < 2 then Err("list index out of range")
    else
      var w := WinIndex(TeamScores(m.teams, workers, style, d));
      assert forall v :: v in m.teams[w] ==> v in workers;
      assert forall v :: v in m.teams[1 - w] ==> v in workers;
      Ok(DecidedOutcome(m.teams[w], m.teams[1 - w], workers, Methods[d.methodPick % 4], d.teamTime))
  }

  /** Cancellation happens exactly on the injury rule; it records the
      injury, the fixed recap and a severity-3 note, and no winners or losers. */
  lemma CancelRule(m: Match, workers: map<Id, Worker>, showName: string, style: Style, d: MatchDraws)
    requires Staffed(m, workers)
    ensures var r := Resolution(m, workers, showName, style, d);
      (r.Ok? && r.value.result.Canceled?) <==> d.cancelRoll < 0.05 && style in {Mma, Hardcore}
    ensures var r := Resolution(m, workers, showName, style, d);
      r.Ok? && r.value.result.Canceled? ==>
        && r.value.result == Canceled("Injury in camp")
        && r.value.recap == "Bout canceled due to injury."
        && r.value.note == Note(MatchCanceled, "Match canceled on " + showName, 3)
  {
  }

  /** A team match is won by team 0 exactly when its score is at least team
      1's (ties go to team 0); the two teams take opposite roles and together
      are the match's first two teams; the method is one of the four and the
      duration lies in [240, 1500]. */
  lemma TeamDecision(m: Match, workers: map<Id, Worker>, showName: string, style: Style, d: MatchDraws)
    requires DrawsOk(d) && Staffed(m, workers)
    requires !CancelDrawn(style, d) && |m.teams| >= 2
    ensures var r := Resolution(m, workers, showName, style, d);
      var s := TeamScores(m.teams, workers, style, d);
      && r.Ok? && r.value.result.Decided?
      && (s[0] >= s[1] ==> r.value.result.winners == m.teams[0] && r.value.result.losers == m.teams[1])
      && (s[0] < s[1] ==> r.value.result.winners == m.teams[1] && r.value.result.losers == m.teams[0])
      && multiset{r.value.result.winners, r.value.result.losers} == multiset{m.teams[0], m.teams[1]}
      && r.value.result.finish in Methods
      && 240 <= r.value.result.timeS <= 1500
      && r.value.note.kind == MatchResultPosted && r.value.note.severity == 2
  {
  }

  /** In the teamless fallback the winner is a highest-scoring participant,
      the loser is a participant with a different id scoring highest among
      those, the method is one of the four and the duration lies in
      [180, 1200]. */
  lemma SoloDecision(m: Match, workers: map<Id, Worker>, showName: string, style: Style, d: MatchDraws)
    requires DrawsOk(d) && Staffed(m, workers)
    requires !CancelDrawn(style, d) && m.teams == []
    requires Resolution(m, workers, showName, style, d).Ok?
    ensures var r := Resolution(m, workers, showName, style, d).value.result;
      var ps := m.participants;
      var s := SoloScores(ps, workers, style, d);
      && r.Decided? && |r.winners| == 1 && |r.losers| == 1
      && r.winners[0] in ps && r.losers[0] in ps && r.winners[0] != r.losers[0]
      && (exists i :: 0 <= i < |ps| && ps[i] == r.winners[0] && forall j :: 0 <= j < |ps| ==> s[j] <= s[i])
      && (exists i :: 0 <= i < |ps| && ps[i] == r.losers[0]
            && forall j :: 0 <= j < |ps| && ps[j] != r.winners[0] ==> s[j] <= s[i])
      && r.finish in Methods
      && 180 <= r.timeS <= 1200
  {
    var ps := m.participants;
    var s := SoloScores(ps, workers, style, d);
    var top := Leader(s, ps, None);
    var second := Leader(s, ps, Some(ps[top.value]));
    assert ps[top.value] in ps && ps[second.value] in ps;
  }

  /** Resolution fails exactly where the source raises: a single team, or a
      teamless match without two different participants. Every match the
      store accepts resolves. */
  lemma ResolutionDefined(m: Match, workers: map<Id, Worker>, showName: string, style: Style, d: MatchDraws)
    requires Staffed(m, workers)
    ensures Resolution(m, workers, showName, style, d).Err? <==>
      && !CancelDrawn(style, d)
      && (|m.teams| == 1
          || (m.teams == [] && forall i, j :: 0 <= i < j < |m.participants| ==> m.participants[i] == m.participants[j]))
    ensures Resolvable(m) ==> Resolution(m, workers, showName, style, d).Ok?
  {
    var ps := m.participants;
    if !CancelDrawn(style, d) && m.teams == [] {
      var s := SoloScores(ps, workers, style, d);
      var top := Leader(s, ps, None);
      if top.Some? {
        var w := ps[top.value];
        var second := Leader(s, ps, Some(w));
        if second.None? {
          forall i, j | 0 <= i < j < |ps| ensures ps[i] == ps[j] {
            assert Some(ps[i]) == Some(w) && Some(ps[j]) == Some(w);
          }
        } else {
          var k := second.value;
          assert ps[k] != w;
          if k < top.value {
            assert !(forall i, j :: 0 <= i < j < |ps| ==> ps[i] == ps[j]) by {
              assert ps[k] != ps[top.value];
            }
          } else {
            assert !(forall i, j :: 0 <= i < j < |ps| ==> ps[i] == ps[j]) by {
              assert ps[top.value] != ps[k];
            }
          }
        }
      }
    }
  }

  // ------------------------------------------------------------ run_match

  /** The match with its outcome written into it. */
  function Resolved(m: Match, o: Outcome): Match {
    m.(result := Some(o.result), recap := o.recap)
  }

  /** The decision `run_match` takes, computed the way the source does (a
      scoring loop over the teams), for a match the store accepts. */
  method Decide(m: Match, workers: map<Id, Worker>, showName: string, style: Style, d: MatchDraws)
    returns (o: Outcome)
    requires Staffed(m, workers) && Resolvable(m)
    ensures Resolution(m, workers, showName, style, d) == Ok(o)
  {
    ResolutionDefined(m, workers, showName, style, d);
    if CancelDrawn(style, d) {
      o := CancelOutcome(showName);
    } else if m.teams == [] {
      o := Resolution(m, workers, showName, style, d).value;
    } else {
      var scores := ScoreTeams(m.teams, workers, style, d);
      var w := if scores[0] >= scores[1] then 0 else 1;
      assert forall v :: v in m.teams[w] ==> v in workers;
      assert forall v :: v in m.teams[1 - w] ==> v in workers;
      o := DecidedOutcome(m.teams[w], m.teams[1 - w], workers, Methods[d.methodPick % 4], d.teamTime);
    }
  }

  /** `run_match`: the match gets the result and recap Resolution decides,
      one note goes on the ticker, and nothing else changes. */
  method RunMatch(u: Universe, mid: Id, d: MatchDraws) returns (o: Outcome)
    requires u.Valid() && mid in u.matches
    modifies u`matches, u`ticker
    ensures u.Valid()
    ensures var m := old(u.matches[mid]);
      var show := u.shows[m.showId];
      Staffed(m, u.workers)
      && Resolution(m, u.workers, show.name, u.federations[show.fedId].style, d) == Ok(o)
    ensures u.matches == old(u.matches)[mid := Resolved(old(u.matches[mid]), o)]
    ensures u.ticker == [Event(o.note.kind, o.note.headline, o.note.severity, u.currentWeek)] + old(u.ticker)
  {
    var m := u.matches[mid];
    var show := u.shows[m.showId];
    var style := u.federations[show.fedId].style;
    assert MatchFits(m, u.shows, u.workers);
    FitsStaffed(m, u.shows, u.workers);
    o := Decide(m, u.workers, show.name, style, d);
    u.matches := u.matches[mid := Resolved(m, o)];
    assert MatchFits(Resolved(m, o), u.shows, u.workers);
    u.AddTicker(o.note);
  }

  lemma {:induction false} FitsStaffed(m: Match, shows: map<Id, Show>, workers: map<Id, Worker>)
    requires MatchFits(m, shows, workers)
    ensures Staffed(m, workers) && Resolvable(m)
  {
    forall t, p | 0 <= t < |m.teams| && p in m.teams[t] ensures p in workers {
      assert m.teams[t] in m.teams;
    }
  }

  /** Writing an outcome into a match does not change how it resolves. */
  lemma {:induction false} ResolvedResolvesAlike(m: Match, o: Outcome, workers: map<Id, Worker>, showName: string,
                                                 style: Style, d: MatchDraws)
    requires Staffed(m, workers)
    ensures Staffed(Resolved(m, o), workers)
    ensures Resolution(Resolved(m, o), workers, showName, style, d) == Resolution(m, workers, showName, style, d)
  {
    var m' := Resolved(m, o);
    assert m'.teams == m.teams && m'.participants == m.participants;
  }

  // ------------------------------------------------------------ run_card

  /** Card order: ascending `order`, and ascending id among equal orders
      (ids are handed out in increasing order, so this is the insertion
      order the stable sort keeps). */
  predicate Before(ms: map<Id, Match>, x: Id, y: Id)
    requires x in ms && y in ms
  {
    ms[x].order < ms[y].order || (ms[x].order == ms[y].order && x < y)
  }

  /** `x` comes first in `s` under card order. */
  predicate IsFirst(ms: map<Id, Match>, s: set<Id>, x: Id)
    requires s <= ms.Keys
  {
    x in s && forall y :: y in s && y != x ==> Before(ms, x, y)
  }

  lemma {:induction false} FirstExists(ms: map<Id, Match>, s: set<Id>)
    requires s != {} && s <= ms.Keys
    ensures exists x :: IsFirst(ms, s, x)
    decreases |s|
  {
    var z :| z in s;
    if s == {z} {
      assert IsFirst(ms, s, z);
    } else {
      var s' := s - {z};
      assert |s'| == |s| - 1;
      FirstExists(ms, s');
      var x :| IsFirst(ms, s', x);
      assert s == s' + {z};
      FirstAdd(ms, s', x, z);
    }
  }

  /** Adding `z` to a set whose first member is `x`: the earlier of the two
      comes first. */
  lemma {:induction false} FirstAdd(ms: map<Id, Match>, s: set<Id>, x: Id, z: Id)
    requires s <= ms.Keys && z in ms && z !in s && IsFirst(ms, s, x)
    ensures IsFirst(ms, s + {z}, if Before(ms, z, x) then z else x)
  {
    if Before(ms, z, x) {
      forall y | y in s + {z} && y != z ensures Before(ms, z, y) {
        if y != x {
          BeforeTrans(ms, z, x, y);
        }
      }
    }
  }

  lemma BeforeTrans(ms: map<Id, Match>, x: Id, y: Id, z: Id)
    requires x in ms && y in ms && z in ms
    requires Before(ms, x, y) && Before(ms, y, z)
    ensures Before(ms, x, z)
  {
  }

  /** `ran` lists every match of show `showId` exactly once, in card order. */
  ghost predicate InCardOrder(ms: map<Id, Match>, showId: Id, ran: seq<Id>) {
    && (forall x :: x in ran <==> x in ms && ms[x].showId == showId)
    && forall i, j :: 0 <= i < j < |ran| ==> ran[i] in ms && ran[j] in ms && Before(ms, ran[i], ran[j])
  }

  /** The show's matches sorted by their order field: every match of the
      show once, in card order. */
  method CardOrder(ms: map<Id, Match>, showId: Id) returns (r: seq<Id>)
    ensures InCardOrder(ms, showId, r) && NoDup(r)
  {
    var left := set x | x in ms && ms[x].showId == showId;
    r := [];
    while left != {}
      invariant forall x :: x in left ==> x in ms && ms[x].showId == showId
      invariant forall x :: x in r ==> x in ms && ms[x].showId == showId && x !in left
      invariant forall x :: x in ms && ms[x].showId == showId ==> x in r || x in left
      invariant forall i, j :: 0 <= i < j < |r| ==> Before(ms, r[i], r[j])
      invariant forall i, y :: 0 <= i < |r| && y in left ==> Before(ms, r[i], y)
      decreases |left|
    {
      FirstExists(ms, left);
      var x :| IsFirst(ms, left, x);
      r := r + [x];
      left := left - {x};
    }
  }

  /** The draws one show takes: the booking, then match i of the card takes
      `matches(i)`; `nudge` is the popularity draw from [-2, 3]. */
  datatype ShowDraws = ShowDraws(booking: BookingDraws, matches: nat -> MatchDraws, nudge: int)

  function Stamp(n: Note, week: int): Event {
    Event(n.kind, n.headline, n.severity, week)
  }

  /** `tk` is `base` with the notes of `outs` pushed on in order (the newest first). */
  predicate Pushed(tk: seq<Event>, base: seq<Event>, outs: seq<Outcome>, week: int) {
    && |tk| == |base| + |outs|
    && tk[|outs|..] == base
    && forall t :: 0 <= t < |outs| ==> tk[|outs| - 1 - t] == Stamp(outs[t].note, week)
  }

  /** `[Stamp(o.note)] + tk` after `Pushed(tk, ...)` pushes `outs + [o]`. */
  lemma {:induction false} PushedStep(tk: seq<Event>, base: seq<Event>, outs: seq<Outcome>, o: Outcome, week: int)
    requires Pushed(tk, base, outs, week)
    ensures Pushed([Stamp(o.note, week)] + tk, base, outs + [o], week)
  {
    var tk' := [Stamp(o.note, week)] + tk;
    var outs' := outs + [o];
    assert tk'[|outs'|..] == tk[|outs|..];
    forall t | 0 <= t < |outs'| ensures tk'[|outs'| - 1 - t] == Stamp(outs'[t].note, week) {
      if t < |outs| {
        assert tk'[|outs'| - 1 - t] == tk[|outs| - 1 - t];
      }
    }
  }

  /** The first `|outs|` matches of `ran`: match `ran[t]` of `before`
      resolves with draws `matches(t)` to `outs[t]`, and `after` holds that
      outcome written into it. */
  ghost predicate ResolvedAs(before: map<Id, Match>, after: map<Id, Match>, workers: map<Id, Worker>, name: string,
                            style: Style, ran: seq<Id>, outs: seq<Outcome>, d: ShowDraws)
  {
    && |outs| <= |ran|
    && forall t :: 0 <= t < |outs| ==>
      && ran[t] in before && ran[t] in after
      && Staffed(before[ran[t]], workers)
      && Resolution(before[ran[t]], workers, name, style, d.matches(t)) == Ok(outs[t])
      && after[ran[t]] == Resolved(before[ran[t]], outs[t])
  }

  /** Match `ran[t]` holds the result and recap of `outs[t]`. */
  ghost predicate Posted(ms: map<Id, Match>, ran: seq<Id>, outs: seq<Outcome>) {
    && |outs| == |ran|
    && forall t :: 0 <= t < |ran| ==>
      ran[t] in ms && ms[ran[t]].result == Some(outs[t].result) && ms[ran[t]].recap == outs[t].recap
  }

  /** Every match of `ran` holds the outcome the resolver gives it:
      the result and recap of `outs[t]`, for draws `matches(t)`. */
  ghost predicate ResultsPosted(ms: map<Id, Match>, workers: map<Id, Worker>, name: string, style: Style,
                                ran: seq<Id>, outs: seq<Outcome>, d: ShowDraws)
  {
    && Posted(ms, ran, outs)
    && forall t :: 0 <= t < |ran| ==>
      && Staffed(ms[ran[t]], workers)
      && Resolution(ms[ran[t]], workers, name, style, d.matches(t)) == Ok(outs[t])
  }

  lemma {:induction false} ResolvedAsStep(before: map<Id, Match>, after: map<Id, Match>, workers: map<Id, Worker>,
                                          name: string, style: Style, ran: seq<Id>, outs: seq<Outcome>,
                                          d: ShowDraws, o: Outcome)
    requires |outs| < |ran| && NoDup(ran) && ResolvedAs(before, after, workers, name, style, ran, outs, d)
    requires ran[|outs|] in before && Staffed(before[ran[|outs|]], workers)
    requires Resolution(before[ran[|outs|]], workers, name, style, d.matches(|outs|)) == Ok(o)
    ensures ResolvedAs(before, after[ran[|outs|] := Resolved(before[ran[|outs|]], o)], workers, name, style,
                       ran, outs + [o], d)
  {
    var i := |outs|;
    forall t | 0 <= t < i ensures ran[t] != ran[i] {
    }
  }

  /** After a card ran, every match of it holds the resolver's outcome. */
  lemma {:induction false} PostedFromResolved(before: map<Id, Match>, after: map<Id, Match>,
                                              workers: map<Id, Worker>, name: string, style: Style,
                                              ran: seq<Id>, outs: seq<Outcome>, d: ShowDraws)
    requires |outs| == |ran| && ResolvedAs(before, after, workers, name, style, ran, outs, d)
    ensures ResultsPosted(after, workers, name, style, ran, outs, d)
  {
    forall t | 0 <= t < |ran|
      ensures && Staffed(after[ran[t]], workers)
              && Resolution(after[ran[t]], workers, name, style, d.matches(t)) == Ok(outs[t])
    {
      ResolvedResolvesAlike(before[ran[t]], outs[t], workers, name, style, d.matches(t));
    }
  }

  /** Updating the matches of show `showId` in place keeps its card order. */
  lemma {:induction false} OrderKept(before: map<Id, Match>, after: map<Id, Match>, showId: Id, ran: seq<Id>)
    requires InCardOrder(before, showId, ran)
    requires forall x :: x in after <==> x in before
    requires forall x :: x in before && x !in ran ==> after[x] == before[x]
    requires forall x :: x in ran ==> after[x].showId == showId && after[x].order == before[x].order
    ensures InCardOrder(after, showId, ran)
  {
    forall i, j | 0 <= i < j < |ran| ensures Before(after, ran[i], ran[j]) {
      assert Before(before, ran[i], ran[j]);
    }
  }

  /** The loop of `run_card`: runs the matches `ran` of show `showId` one
      after the other, match i with draws `matches(i)`. */
  /** Only matches of `ran` may change, keys stay, and those from position
      `n` on are still as they were. */
  ghost predicate Untouched(before: map<Id, Match>, after: map<Id, Match>, ran: seq<Id>, n: nat) {
    && (forall x :: x in after <==> x in before)
    && (forall x :: x in before && x !in ran ==> after[x] == before[x])
    && (forall t :: n <= t < |ran| && ran[t] in before ==> after[ran[t]] == before[ran[t]])
  }

  lemma {:induction false} UntouchedStep(before: map<Id, Match>, after: map<Id, Match>, ran: seq<Id>, n: nat,
                                         m: Match)
    requires Untouched(before, after, ran, n) && n < |ran| && NoDup(ran) && ran[n] in before
    ensures Untouched(before, after[ran[n] := m], ran, n + 1)
  {
    assert ran[n] in ran;
    forall t | n + 1 <= t < |ran| && ran[t] in before
      ensures after[ran[n] := m][ran[t]] == before[ran[t]]
    {
      assert ran[t] != ran[n];
    }
  }

  method RunInOrder(u: Universe, showId: Id, ran: seq<Id>, d: ShowDraws) returns (outs: seq<Outcome>)
    requires u.Valid() && showId in u.shows && NoDup(ran)
    requires forall x :: x in ran ==> x in u.matches && u.matches[x].showId == showId
    modifies u`matches, u`ticker
    ensures u.Valid()
    ensures forall x :: x in u.matches <==> x in old(u.matches)
    ensures forall x :: x in old(u.matches) && x !in ran ==> u.matches[x] == old(u.matches)[x]
    ensures |outs| == |ran|
    ensures ResolvedAs(old(u.matches), u.matches, u.workers, u.shows[showId].name,
                       u.federations[u.shows[showId].fedId].style, ran, outs, d)
    ensures Pushed(u.ticker, old(u.ticker), outs, u.currentWeek)
  {
    outs := [];
    while |outs| < |ran|
      invariant u.Valid() && |outs| <= |ran|
      invariant Untouched(old(u.matches), u.matches, ran, |outs|)
      invariant ResolvedAs(old(u.matches), u.matches, u.workers, u.shows[showId].name,
                           u.federations[u.shows[showId].fedId].style, ran, outs, d)
      invariant Pushed(u.ticker, old(u.ticker), outs, u.currentWeek)
      decreases |ran| - |outs|
    {
      outs := RunNext(u, showId, ran, outs, d, old(u.matches), old(u.ticker));
    }
  }

  /** One pass of the card loop: resolve match `ran[|outs|]`. */
  method RunNext(u: Universe, showId: Id, ran: seq<Id>, outs: seq<Outcome>, d: ShowDraws,
                 ghost ms0: map<Id, Match>, ghost tk0: seq<Event>) returns (outs': seq<Outcome>)
    requires u.Valid() && showId in u.shows && NoDup(ran) && |outs| < |ran|
    requires forall x :: x in ran ==> x in ms0 && ms0[x].showId == showId
    requires Untouched(ms0, u.matches, ran, |outs|)
    requires ResolvedAs(ms0, u.matches, u.workers, u.shows[showId].name,
                        u.federations[u.shows[showId].fedId].style, ran, outs, d)
    requires Pushed(u.ticker, tk0, outs, u.currentWeek)
    modifies u`matches, u`ticker
    ensures u.Valid() && |outs'| == |outs| + 1
    ensures Untouched(ms0, u.matches, ran, |outs'|)
    ensures ResolvedAs(ms0, u.matches, u.workers, u.shows[showId].name,
                       u.federations[u.shows[showId].fedId].style, ran, outs', d)
    ensures Pushed(u.ticker, tk0, outs', u.currentWeek)
  {
    var i := |outs|;
    var x := ran[i];
    assert x in ran;
    ghost var before := u.matches;
    ghost var tk := u.ticker;
    var o := RunMatch(u, x, d.matches(i));
    ResolvedAsStep(ms0, before, u.workers, u.shows[showId].name, u.federations[u.shows[showId].fedId].style,
                   ran, outs, d, o);
    UntouchedStep(ms0, before, ran, i, Resolved(ms0[x], o));
    PushedStep(tk, tk0, outs, o, u.currentWeek);
    outs' := outs + [o];
  }

  /** `run_card` once the booking step is done. */
  method RunBookedCard(u: Universe, showId: Id, d: ShowDraws) returns (ran: seq<Id>, outs: seq<Outcome>)
    requires u.Valid() && showId in u.shows
    modifies u`matches, u`ticker, u`shows
    ensures u.Valid()
    ensures u.currentWeek == old(u.currentWeek) && u.federations == old(u.federations)
    ensures u.workers == old(u.workers) && u.employment == old(u.employment)
    ensures InCardOrder(old(u.matches), showId, ran) && NoDup(ran)
    ensures InCardOrder(u.matches, showId, ran)
    ensures OtherShowsKept(old(u.matches), u.matches, showId)
    ensures ResultsPosted(u.matches, u.workers, old(u.shows)[showId].name,
                          u.federations[old(u.shows)[showId].fedId].style, ran, outs, d)
    ensures ran == [] ==>
      && u.shows == old(u.shows)
      && u.ticker == [Event(BookingUpdate, "No matches available for " + old(u.shows)[showId].name, 2,
                            u.currentWeek)] + old(u.ticker)
    ensures ran != [] ==>
      && u.shows == old(u.shows)[showId := old(u.shows)[showId].(status := Completed)]
      && |u.ticker| == |old(u.ticker)| + |ran| + 1
      && u.ticker[0] == Event(ShowCompleted, "Show completed: " + old(u.shows)[showId].name, 2, u.currentWeek)
      && Pushed(u.ticker[1..], old(u.ticker), outs, u.currentWeek)
  {
    var show := u.shows[showId];
    ran := CardOrder(u.matches, showId);
    if ran == [] {
      u.AddTicker(Note(BookingUpdate, "No matches available for " + show.name, 2));
      outs := [];
      return;
    }
    outs := PlayCard(u, showId, ran, d);
    ghost var tk := u.ticker;
    u.SetShowStatus(showId, Completed);
    u.AddTicker(Note(ShowCompleted, "Show completed: " + show.name, 2));
    assert u.ticker[1..] == tk;
  }

  /** Runs the card `ran` of show `showId`: the loop and what it leaves. */
  method PlayCard(u: Universe, showId: Id, ran: seq<Id>, d: ShowDraws) returns (outs: seq<Outcome>)
    requires u.Valid() && showId in u.shows && NoDup(ran) && InCardOrder(u.matches, showId, ran)
    modifies u`matches, u`ticker
    ensures u.Valid()
    ensures InCardOrder(u.matches, showId, ran)
    ensures OtherShowsKept(old(u.matches), u.matches, showId)
    ensures ResultsPosted(u.matches, u.workers, u.shows[showId].name, u.federations[u.shows[showId].fedId].style,
                          ran, outs, d)
    ensures Pushed(u.ticker, old(u.ticker), outs, u.currentWeek)
  {
    var show := u.shows[showId];
    var style := u.federations[show.fedId].style;
    outs := RunInOrder(u, showId, ran, d);
    PostedFromResolved(old(u.matches), u.matches, u.workers, show.name, style, ran, outs, d);
    OrderKept(old(u.matches), u.matches, showId, ran);
    RunKeepsOthers(old(u.matches), u.matches, showId, ran);
  }

  lemma {:induction false} RunKeepsOthers(before: map<Id, Match>, after: map<Id, Match>, showId: Id, ran: seq<Id>)
    requires forall x :: x in after <==> x in before
    requires forall x :: x in before && x !in ran ==> after[x] == before[x]
    requires forall x :: x in ran ==> x in before && before[x].showId == showId
    requires forall x :: x in ran ==> after[x].showId == showId
    ensures OtherShowsKept(before, after, showId)
  {
  }

  lemma {:induction false} KeptTwice(m0: map<Id, Match>, m1: map<Id, Match>, m2: map<Id, Match>, showId: Id)
    requires OtherShowsKept(m0, m1, showId) && OtherShowsKept(m1, m2, showId)
    ensures OtherShowsKept(m0, m2, showId)
  {
  }

  /** What booking contributes to a run of show `showId` from the match
      table `before`. A show that had matches runs exactly those and books
      nothing. Otherwise `shuffled` holds each worker of `roster` once, with
      its gender, the card built from it satisfies CardOk and the stopping
      rule, and the matches run are exactly the `created` ones, one per
      slot. */
  ghost predicate CardRun(before: map<Id, Match>, showId: Id, roster: set<Id>, workers: map<Id, Worker>,
                          fed: Federation, draws: BookingDraws, ran: seq<Id>, created: seq<Id>,
                          shuffled: seq<Entry>, card: seq<Slot>)
  {
    && (HasCard(before, showId) ==> created == [] && InCardOrder(before, showId, ran))
    && (!HasCard(before, showId) ==> (forall x :: x in ran <==> x in created) && |ran| == |card|)
    && RosterEntries(shuffled, roster, workers)
    && CardOk(card, shuffled, fed, draws)
    && (!HasCard(before, showId) && |card| < 4 ==>
          !Pairable(PickRecipe(fed, draws.slots(|card|).recipe), Without(shuffled, Booked(card)),
                    IntergenderAllowed(fed)))
  }

  /** Booking never looks at a federation's popularity: a card run for
      `fed` with any other popularity is one for `fed`. */
  lemma {:induction false} CardRunIgnoresPopularity(before: map<Id, Match>, showId: Id, roster: set<Id>,
                                                    workers: map<Id, Worker>, fed: Federation, p: int,
                                                    draws: BookingDraws, ran: seq<Id>, created: seq<Id>,
                                                    shuffled: seq<Entry>, card: seq<Slot>)
    requires CardRun(before, showId, roster, workers, fed.(popularity := p), draws, ran, created, shuffled, card)
    ensures CardRun(before, showId, roster, workers, fed, draws, ran, created, shuffled, card)
  {
    var nudged := fed.(popularity := p);
    assert IntergenderAllowed(nudged) == IntergenderAllowed(fed);
    forall r: nat ensures PickRecipe(nudged, r) == PickRecipe(fed, r) {
      assert RecipeChoices(nudged) == RecipeChoices(fed);
    }
  }

  /** `run_card`. The card is booked if missing; `ran` is every match of the
      show in card order, match i resolved with draws `matches(i)` into
      `outs[i]`, its note on the ticker in that order. Matches of other shows
      are untouched. An empty card leaves the status alone and logs a
      booking update; otherwise the show is completed and a completion event
      goes on top. */
  method RunCard(u: Universe, showId: Id, d: ShowDraws)
    returns (ran: seq<Id>, outs: seq<Outcome>, created: seq<Id>, shuffled: seq<Entry>, card: seq<Slot>)
    requires u.Valid() && showId in u.shows
    modifies u`matches, u`nextId, u`ticker, u`shows
    ensures u.Valid()
    ensures u.currentWeek == old(u.currentWeek) && u.federations == old(u.federations)
    ensures u.workers == old(u.workers) && u.employment == old(u.employment)
    ensures CardRun(old(u.matches), showId, EmployedWorkers(u.employment, old(u.shows)[showId].fedId,
                                                            Some(old(u.shows)[showId].week), u.currentWeek),
                    u.workers, u.federations[old(u.shows)[showId].fedId], d.booking, ran, created, shuffled, card)
    ensures InCardOrder(u.matches, showId, ran)
    ensures OtherShowsKept(old(u.matches), u.matches, showId)
    ensures ResultsPosted(u.matches, u.workers, old(u.shows)[showId].name,
                          u.federations[old(u.shows)[showId].fedId].style, ran, outs, d)
    ensures ran == [] ==>
      && u.shows == old(u.shows)
      && u.ticker == [Event(BookingUpdate, "No matches available for " + old(u.shows)[showId].name, 2,
                            u.currentWeek)] + old(u.ticker)
    ensures ran != [] ==>
      && u.shows == old(u.shows)[showId := old(u.shows)[showId].(status := Completed)]
      && |u.ticker| == |old(u.ticker)| + |ran| + 1
      && u.ticker[0] == Event(ShowCompleted, "Show completed: " + old(u.shows)[showId].name, 2, u.currentWeek)
      && Pushed(u.ticker[1..], old(u.ticker), outs, u.currentWeek)
  {
    created, shuffled, card := EnsureCard(u, showId, d.booking);
    ghost var m1 := u.matches;
    ran, outs := RunBookedCard(u, showId, d);
    KeptTwice(old(u.matches), m1, u.matches, showId);
    if !HasCard(old(u.matches), showId) {
      NewCardRuns(old(u.matches), m1, created, showId, ran);
    }
  }

  /** On a show that had no card, the matches run are exactly the ones the
      booking step created. */
  lemma {:induction false} NewCardRuns(before: map<Id, Match>, m1: map<Id, Match>, created: seq<Id>, showId: Id,
                                       ran: seq<Id>)
    requires !HasCard(before, showId)
    requires forall m :: m in m1 <==> m in before || m in created
    requires forall m :: m in before ==> m1[m] == before[m]
    requires forall c :: c in created ==> c in m1 && m1[c].showId == showId
    requires forall x :: x in ran <==> x in m1 && m1[x].showId == showId
    requires NoDup(ran) && NoDup(created)
    ensures forall x :: x in ran <==> x in created
    ensures |ran| == |created|
  {
    var t := set x | x in created;
    NoDupCard(created, t);
    NoDupCard(ran, t);
  }

  // ------------------------------------------------------------ run_all_cards_this_week

  /** The popularity moved by the draw cut to [-3, 3], then kept within
      [0, 100]: it stays a percentage, and a draw from [-2, 3] moves it that
      way by at most that much. */
  function Nudge(popularity: int, draw: int): (r: int)
    ensures 0 <= r <= 100
    ensures 0 <= popularity <= 100 && -2 <= draw <= 3 ==>
      && (draw >= 0 ==> popularity <= r <= popularity + draw)
      && (draw <= 0 ==> popularity + draw <= r <= popularity)
    ensures -3 <= draw <= 3 && 0 <= popularity + draw <= 100 ==> r == popularity + draw
  {
    Clamp(popularity + Clamp(draw, -3, 3), 0, 100)
  }

  /** The shows of week `wk` still upcoming, in insertion order. */
  method ShowsDue(shows: map<Id, Show>, bound: Id, wk: int) returns (todays: seq<Id>)
    requires forall k :: k in shows ==> k < bound
    ensures forall s :: s in todays <==> s in shows && shows[s].week == wk && shows[s].status == Upcoming
    ensures Ascending(todays)
  {
    todays := [];
    for k := 0 to bound
      invariant forall s :: s in todays <==>
        s in shows && shows[s].week == wk && shows[s].status == Upcoming && s < k
      invariant Ascending(todays)
      invariant forall i :: 0 <= i < |todays| ==> todays[i] < k
    {
      if k in shows && shows[k].week == wk && shows[k].status == Upcoming {
        todays := todays + [k];
      }
    }
  }

  /** Show `s` has run: `ran` is its card in order, every match of it holds
      its outcome from `outs`, and it is completed exactly when it had a
      card (an upcoming show with no card stays upcoming). */
  ghost predicate ShowRan(ms: map<Id, Match>, shows: map<Id, Show>, s: Id, ran: seq<Id>, outs: seq<Outcome>) {
    && s in shows
    && InCardOrder(ms, s, ran)
    && Posted(ms, ran, outs)
    && shows[s].status == (if ran == [] then Upcoming else Completed)
  }

  /** Running another show keeps what is known about a show that already ran. */
  lemma {:induction false} ShowRanKept(ms: map<Id, Match>, ms': map<Id, Match>, shows: map<Id, Show>,
                                       shows': map<Id, Show>, s: Id, t: Id, ran: seq<Id>, outs: seq<Outcome>)
    requires s != t
    requires ShowRan(ms, shows, s, ran, outs)
    requires OtherShowsKept(ms, ms', t)
    requires s in shows' && shows'[s] == shows[s]
    ensures ShowRan(ms', shows', s, ran, outs)
  {
    forall x | x in ran ensures x in ms' && ms'[x] == ms[x] {
    }
    forall i, j | 0 <= i < j < |ran| ensures Before(ms', ran[i], ran[j]) {
      assert Before(ms, ran[i], ran[j]);
    }
    forall t | 0 <= t < |ran| ensures ms'[ran[t]] == ms[ran[t]] {
      assert ran[t] in ran;
    }
  }

  /** Matches of shows outside `done` are neither changed nor added. */
  ghost predicate KeptExcept(before: map<Id, Match>, after: map<Id, Match>, done: set<Id>) {
    && (forall x :: x in before && before[x].showId !in done ==> x in after && after[x] == before[x])
    && (forall x :: x in after && after[x].showId !in done ==> x in before)
  }

  lemma {:induction false} KeptExceptStep(m0: map<Id, Match>, m1: map<Id, Match>, m2: map<Id, Match>,
                                          done: set<Id>, t: Id)
    requires KeptExcept(m0, m1, done) && OtherShowsKept(m1, m2, t)
    ensures KeptExcept(m0, m2, done + {t})
  {
  }

  /** One pass of the loop over today's shows: run the card (its booking
      and its outcomes as `RunCard` states them), then nudge the
      federation's popularity by the show's draw. */
  method RunDueShow(u: Universe, t: Id, d: ShowDraws)
    returns (ran: seq<Id>, outs: seq<Outcome>, created: seq<Id>, shuffled: seq<Entry>, card: seq<Slot>)
    requires u.Valid() && t in u.shows && u.shows[t].status == Upcoming
    modifies u`matches, u`nextId, u`ticker, u`shows, u`federations
    ensures u.Valid()
    ensures u.currentWeek == old(u.currentWeek)
    ensures u.workers == old(u.workers) && u.employment == old(u.employment)
    ensures CardRun(old(u.matches), t, EmployedWorkers(u.employment, old(u.shows)[t].fedId,
                                                       Some(old(u.shows)[t].week), u.currentWeek),
                    u.workers, old(u.federations)[old(u.shows)[t].fedId], d.booking, ran, created, shuffled, card)
    ensures ResultsPosted(u.matches, u.workers, old(u.shows)[t].name,
                          old(u.federations)[old(u.shows)[t].fedId].style, ran, outs, d)
    ensures ShowRan(u.matches, u.shows, t, ran, outs)
    ensures OtherShowsKept(old(u.matches), u.matches, t)
    ensures u.shows == old(u.shows)[t := old(u.shows)[t].(status := u.shows[t].status)]
    ensures var f := old(u.shows)[t].fedId;
      u.federations == old(u.federations)[f := old(u.federations)[f].(
        popularity := Nudge(old(u.federations)[f].popularity, d.nudge))]
    ensures |u.ticker| > |old(u.ticker)| && Extends(u.ticker, old(u.ticker))
  {
    // The nudge is written before the card runs: running a card neither
    // reads nor writes a popularity, so the end state, which the contract
    // states against the state on entry, is the one of either order.
    var fid := u.shows[t].fedId;
    u.SetPopularity(fid, Nudge(u.federations[fid].popularity, d.nudge));
    ghost var tk0 := u.ticker;
    ran, outs, created, shuffled, card := RunCard(u, t, d);
    assert Pushed(u.ticker[1..], [] + tk0, outs, u.currentWeek) by {
      if ran == [] {
        assert u.ticker[1..] == [] + tk0;
      }
    }
    PushedExtends(u.ticker, [], tk0, outs, u.currentWeek);
    CardRunIgnoresPopularity(old(u.matches), t, EmployedWorkers(u.employment, old(u.shows)[t].fedId,
                                                                Some(old(u.shows)[t].week), u.currentWeek),
                             u.workers, old(u.federations)[fid], u.federations[fid].popularity,
                             d.booking, ran, created, shuffled, card);
  }

  /** A ticker whose tail pushes notes on `first + base` extends `base`. */
  lemma {:induction false} PushedExtends(tk: seq<Event>, first: seq<Event>, base: seq<Event>, outs: seq<Outcome>,
                                         week: int)
    requires |tk| >= 1 && Pushed(tk[1..], first + base, outs, week)
    ensures |tk| > |base| && Extends(tk, base)
  {
    assert tk[|tk| - |base|..] == tk[1..][|outs|..][|first|..];
  }

  /** `done` is the set of the first `n` shows of `todays`. */
  predicate DoneFirst(todays: seq<Id>, done: set<Id>, n: nat) {
    && n <= |todays|
    && (forall s :: s in done ==> s in todays)
    && (forall j :: 0 <= j < n ==> todays[j] in done)
    && (forall j :: n <= j < |todays| ==> todays[j] !in done)
  }

  /** The first `|cards|` shows of `todays` have run. */
  ghost predicate AllRan(ms: map<Id, Match>, shows: map<Id, Show>, todays: seq<Id>, cards: seq<seq<Id>>,
                         outcomes: seq<seq<Outcome>>)
  {
    && |cards| <= |todays| && |outcomes| == |cards|
    && forall j :: 0 <= j < |cards| ==> ShowRan(ms, shows, todays[j], cards[j], outcomes[j])
  }

  /** Only the shows in `done` may change, and only in their status. */
  ghost predicate ShowsKept(shows0: map<Id, Show>, shows: map<Id, Show>, done: set<Id>) {
    && shows.Keys == shows0.Keys
    && (forall s :: s in shows0 && s !in done ==> shows[s] == shows0[s])
    && (forall s :: s in shows0 ==> shows[s] == shows0[s].(status := shows[s].status))
  }

  /** Federations change only in popularity, only those of a show in `done`
      (the first `n` of `todays`) change at all, and those lie in [0, 100]. */
  ghost predicate FedsKept(shows0: map<Id, Show>, feds0: map<Id, Federation>, feds: map<Id, Federation>,
                           done: set<Id>, todays: seq<Id>, n: nat)
  {
    && feds.Keys == feds0.Keys
    && (forall f :: f in feds0 ==> feds[f] == feds0[f].(popularity := feds[f].popularity))
    && (forall f :: f in feds0 && (forall s :: s in done && s in shows0 ==> shows0[s].fedId != f) ==>
          feds[f] == feds0[f])
    && (forall j :: 0 <= j < n && j < |todays| && todays[j] in shows0 && shows0[todays[j]].fedId in feds ==>
          0 <= feds[shows0[todays[j]].fedId].popularity <= 100)
  }

  /** The loop over today's shows after `|cards|` passes: those shows (the
      set `done`) have run, and nothing else has changed beyond what
      `ShowsKept`, `KeptExcept` and `FedsKept` allow. */
  ghost predicate Progress(ms0: map<Id, Match>, shows0: map<Id, Show>, feds0: map<Id, Federation>,
                           ms: map<Id, Match>, shows: map<Id, Show>, feds: map<Id, Federation>,
                           todays: seq<Id>, done: set<Id>, cards: seq<seq<Id>>, outcomes: seq<seq<Outcome>>)
  {
    && DoneFirst(todays, done, |cards|)
    && AllRan(ms, shows, todays, cards, outcomes)
    && ShowsKept(shows0, shows, done)
    && KeptExcept(ms0, ms, done)
    && FedsKept(shows0, feds0, feds, done, todays, |cards|)
  }

  /** `tk` is `base` with entries pushed on its front. */
  predicate Extends(tk: seq<Event>, base: seq<Event>) {
    |tk| >= |base| && tk[|tk| - |base|..] == base
  }

  lemma {:induction false} ExtendsTrans(a: seq<Event>, b: seq<Event>, c: seq<Event>)
    requires Extends(a, b) && Extends(b, c)
    ensures Extends(a, c)
  {
    assert a[|a| - |c|..] == a[|a| - |b|..][|b| - |c|..];
  }

  lemma {:induction false} AllRanStep(ms: map<Id, Match>, shows: map<Id, Show>,
                                      ms': map<Id, Match>, shows': map<Id, Show>, todays: seq<Id>,
                                      cards: seq<seq<Id>>, outcomes: seq<seq<Outcome>>,
                                      ran: seq<Id>, outs: seq<Outcome>)
    requires Ascending(todays) && AllRan(ms, shows, todays, cards, outcomes)
    requires |cards| < |todays|
    requires ShowRan(ms', shows', todays[|cards|], ran, outs)
    requires OtherShowsKept(ms, ms', todays[|cards|])
    requires forall s :: s in shows && s != todays[|cards|] ==> s in shows' && shows'[s] == shows[s]
    ensures AllRan(ms', shows', todays, cards + [ran], outcomes + [outs])
  {
    var i := |cards|;
    forall j | 0 <= j < i + 1
      ensures ShowRan(ms', shows', todays[j], (cards + [ran])[j], (outcomes + [outs])[j])
    {
      if j < i {
        assert todays[j] < todays[i];
        ShowRanKept(ms, ms', shows, shows', todays[j], todays[i], cards[j], outcomes[j]);
        assert (cards + [ran])[j] == cards[j] && (outcomes + [outs])[j] == outcomes[j];
      }
    }
  }

  lemma {:induction false} FedsKeptStep(shows0: map<Id, Show>, feds0: map<Id, Federation>,
                                        feds: map<Id, Federation>, feds': map<Id, Federation>,
                                        done: set<Id>, todays: seq<Id>, n: nat, d: ShowDraws)
    requires n < |todays|
    requires forall s :: s in todays ==> s in shows0
    requires forall s :: s in shows0 ==> shows0[s].fedId in feds0
    requires FedsKept(shows0, feds0, feds, done, todays, n)
    requires var f := shows0[todays[n]].fedId;
      feds' == feds[f := feds[f].(popularity := Nudge(feds[f].popularity, d.nudge))]
    ensures FedsKept(shows0, feds0, feds', done + {todays[n]}, todays, n + 1)
  {
    var f := shows0[todays[n]].fedId;
    forall j | 0 <= j < n + 1 ensures 0 <= feds'[shows0[todays[j]].fedId].popularity <= 100 {
      if shows0[todays[j]].fedId != f {
        assert feds'[shows0[todays[j]].fedId] == feds[shows0[todays[j]].fedId];
      }
    }
    forall g | g in feds0 && (forall s :: s in done + {todays[n]} && s in shows0 ==> shows0[s].fedId != g)
      ensures feds'[g] == feds0[g]
    {
      assert todays[n] in done + {todays[n]};
    }
  }

  lemma {:induction false} ProgressStep(ms0: map<Id, Match>, shows0: map<Id, Show>, feds0: map<Id, Federation>,
                                        ms: map<Id, Match>, shows: map<Id, Show>, feds: map<Id, Federation>,
                                        ms': map<Id, Match>, shows': map<Id, Show>, feds': map<Id, Federation>,
                                        todays: seq<Id>, done: set<Id>, cards: seq<seq<Id>>,
                                        outcomes: seq<seq<Outcome>>, ran: seq<Id>, outs: seq<Outcome>, d: ShowDraws)
    requires Ascending(todays) && |cards| < |todays|
    requires forall s :: s in todays ==> s in shows0
    requires forall s :: s in shows0 ==> shows0[s].fedId in feds0
    requires Progress(ms0, shows0, feds0, ms, shows, feds, todays, done, cards, outcomes)
    requires todays[|cards|] in shows
    requires ShowRan(ms', shows', todays[|cards|], ran, outs)
    requires OtherShowsKept(ms, ms', todays[|cards|])
    requires shows' == shows[todays[|cards|] := shows[todays[|cards|]].(status := shows'[todays[|cards|]].status)]
    requires var f := shows[todays[|cards|]].fedId;
      feds' == feds[f := feds[f].(popularity := Nudge(feds[f].popularity, d.nudge))]
    ensures Progress(ms0, shows0, feds0, ms', shows', feds', todays, done + {todays[|cards|]},
                     cards + [ran], outcomes + [outs])
  {
    var t := todays[|cards|];
    DoneFirstStep(todays, done, |cards|);
    AllRanStep(ms, shows, ms', shows', todays, cards, outcomes, ran, outs);
    ShowsKeptStep(shows0, shows, shows', done, t);
    KeptExceptStep(ms0, ms, ms', done, t);
    assert shows[t].fedId == shows0[t].fedId;
    FedsKeptStep(shows0, feds0, feds, feds', done, todays, |cards|, d);
  }

  lemma {:induction false} DoneFirstStep(todays: seq<Id>, done: set<Id>, n: nat)
    requires Ascending(todays) && DoneFirst(todays, done, n) && n < |todays|
    ensures DoneFirst(todays, done + {todays[n]}, n + 1)
  {
    forall j | n + 1 <= j < |todays| ensures todays[j] !in done + {todays[n]} {
      assert todays[n] < todays[j];
    }
  }

  lemma {:induction false} ShowsKeptStep(shows0: map<Id, Show>, shows: map<Id, Show>, shows': map<Id, Show>,
                                         done: set<Id>, t: Id)
    requires ShowsKept(shows0, shows, done) && t in shows
    requires t in shows' && shows' == shows[t := shows[t].(status := shows'[t].status)]
    ensures ShowsKept(shows0, shows', done + {t})
  {
  }

  /** What a week's run leaves behind, from matches `ms0`, shows `shows0` and
      federations `feds0`: every show of `todays` has run; no other show and
      no match of another show changes; federations keep everything but
      their popularity, only those with a show today move at all, and those
      end within [0, 100]. */
  ghost predicate WeekRan(ms0: map<Id, Match>, shows0: map<Id, Show>, feds0: map<Id, Federation>,
                          ms: map<Id, Match>, shows: map<Id, Show>, feds: map<Id, Federation>,
                          todays: seq<Id>, cards: seq<seq<Id>>, outcomes: seq<seq<Outcome>>)
    requires forall s :: s in todays ==> s in shows0
    requires forall s :: s in shows0 ==> shows0[s].fedId in feds0
  {
    && |cards| == |todays| && |outcomes| == |todays|
    && (forall i :: 0 <= i < |todays| ==> ShowRan(ms, shows, todays[i], cards[i], outcomes[i]))
    && shows.Keys == shows0.Keys
    && (forall s :: s in shows0 && s !in todays ==> shows[s] == shows0[s])
    && (forall s :: s in shows0 ==> shows[s] == shows0[s].(status := shows[s].status))
    && (forall x :: x in ms0 && ms0[x].showId !in todays ==> x in ms && ms[x] == ms0[x])
    && (forall x :: x in ms && ms[x].showId !in todays ==> x in ms0)
    && feds.Keys == feds0.Keys
    && (forall f :: f in feds0 ==> feds[f] == feds0[f].(popularity := feds[f].popularity))
    && (forall f :: f in feds0 && (forall s :: s in todays ==> shows0[s].fedId != f) ==> feds[f] == feds0[f])
    && (forall i :: 0 <= i < |todays| ==> 0 <= feds[shows0[todays[i]].fedId].popularity <= 100)
  }

  lemma {:induction false} WeekRanAtEnd(ms0: map<Id, Match>, shows0: map<Id, Show>, feds0: map<Id, Federation>,
                                        ms: map<Id, Match>, shows: map<Id, Show>, feds: map<Id, Federation>,
                                        todays: seq<Id>, done: set<Id>,
                                        cards: seq<seq<Id>>, outcomes: seq<seq<Outcome>>)
    requires forall s :: s in todays ==> s in shows0
    requires forall s :: s in shows0 ==> shows0[s].fedId in feds0
    requires |cards| == |todays|
    requires Progress(ms0, shows0, feds0, ms, shows, feds, todays, done, cards, outcomes)
    ensures WeekRan(ms0, shows0, feds0, ms, shows, feds, todays, cards, outcomes)
  {
    forall f | f in feds0 && (forall s :: s in todays ==> shows0[s].fedId != f) ensures feds[f] == feds0[f] {
      assert forall s :: s in done && s in shows0 ==> shows0[s].fedId != f;
    }
  }

  /** `run_all_cards_this_week`: the shows of the current week still
      upcoming run in insertion order, show i with draws `draws(i)`, each
      followed by its federation's popularity nudge (`WeekRan`). With no
      show due, a schedule note is the only change. */
  method RunAllCardsThisWeek(u: Universe, draws: nat -> ShowDraws)
    returns (todays: seq<Id>, cards: seq<seq<Id>>, outcomes: seq<seq<Outcome>>)
    requires u.Valid()
    modifies u`matches, u`nextId, u`ticker, u`shows, u`federations
    ensures u.Valid()
    ensures u.currentWeek == old(u.currentWeek)
    ensures u.workers == old(u.workers) && u.employment == old(u.employment)
    ensures forall s :: s in todays <==>
      s in old(u.shows) && old(u.shows)[s].week == old(u.currentWeek) && old(u.shows)[s].status == Upcoming
    ensures Ascending(todays)
    ensures WeekRan(old(u.matches), old(u.shows), old(u.federations), u.matches, u.shows, u.federations,
                    todays, cards, outcomes)
    ensures Extends(u.ticker, old(u.ticker))
    ensures todays == [] ==>
      && u.matches == old(u.matches) && u.shows == old(u.shows) && u.federations == old(u.federations)
      && u.ticker == [Event(ScheduleNote, "No shows scheduled for Week " + Text.IntToString(u.currentWeek), 1,
                            u.currentWeek)] + old(u.ticker)
  {
    var wk := u.currentWeek;
    todays := ShowsDue(u.shows, u.nextId, wk);
    if todays == [] {
      u.AddTicker(Note(ScheduleNote, "No shows scheduled for Week " + Text.IntToString(wk), 1));
      cards, outcomes := [], [];
      return;
    }
    cards, outcomes := [], [];
    ghost var done: set<Id> := {};
    for i := 0 to |todays|
      invariant u.Valid() && u.currentWeek == wk
      invariant u.workers == old(u.workers) && u.employment == old(u.employment)
      invariant |cards| == i
      invariant Progress(old(u.matches), old(u.shows), old(u.federations), u.matches, u.shows, u.federations,
                         todays, done, cards, outcomes)
      invariant Extends(u.ticker, old(u.ticker))
    {
      var ran, outs := RunNextShow(u, todays, done, cards, outcomes, draws(i),
                                   old(u.matches), old(u.shows), old(u.federations), old(u.ticker));
      done := done + {todays[i]};
      cards, outcomes := cards + [ran], outcomes + [outs];
    }
    WeekRanAtEnd(old(u.matches), old(u.shows), old(u.federations), u.matches, u.shows, u.federations,
                 todays, done, cards, outcomes);
  }

  /** One pass of the loop over today's shows: show `todays[|cards|]`. */
  method RunNextShow(u: Universe, todays: seq<Id>, ghost done: set<Id>, cards: seq<seq<Id>>,
                     outcomes: seq<seq<Outcome>>, d: ShowDraws, ghost ms0: map<Id, Match>,
                     ghost shows0: map<Id, Show>, ghost feds0: map<Id, Federation>, ghost tk0: seq<Event>)
    returns (ran: seq<Id>, outs: seq<Outcome>)
    requires u.Valid() && Ascending(todays) && |cards| < |todays|
    requires forall s :: s in todays ==> s in shows0 && shows0[s].status == Upcoming
    requires forall s :: s in shows0 ==> shows0[s].fedId in feds0
    requires Progress(ms0, shows0, feds0, u.matches, u.shows, u.federations, todays, done, cards, outcomes)
    requires Extends(u.ticker, tk0)
    modifies u`matches, u`nextId, u`ticker, u`shows, u`federations
    ensures u.Valid()
    ensures u.currentWeek == old(u.currentWeek)
    ensures u.workers == old(u.workers) && u.employment == old(u.employment)
    ensures Progress(ms0, shows0, feds0, u.matches, u.shows, u.federations, todays, done + {todays[|cards|]},
                     cards + [ran], outcomes + [outs])
    ensures Extends(u.ticker, tk0)
  {
    var t := todays[|cards|];
    assert t in todays && t !in done;
    ghost var ms, shows, feds, tk := u.matches, u.shows, u.federations, u.ticker;
    var created, shuffled, card;
    ran, outs, created, shuffled, card := RunDueShow(u, t, d);
    ProgressStep(ms0, shows0, feds0, ms, shows, feds, u.matches, u.shows, u.federations,
                 todays, done, cards, outcomes, ran, outs, d);
    ExtendsTrans(u.ticker, tk, tk0);
  }
}
