/** Scoring and card building: the style-fit table, star power, recipe
    choice, team formation and `ensure_card`. */
module Booking {
  import opened Models
  import opened Store

  // ------------------------------------------------------------ style fit

  /** The style-fit table, keyed by federation style, then worker style.
      An `Unlisted` federation style is no key of the table, and an
      `Unlisted` worker style is in no row. */
  function TableEntry(fedStyle: Style, workerStyle: Style): Option<real> {
    match fedStyle
    case SportsEnt =>
      (match workerStyle
       case SportsEnt => Some(1.15) case Lucha => Some(1.05) case Shoot => Some(0.95)
       case Hardcore => Some(1.00) case Mma => Some(0.90) case Unlisted(_) => None)
    case Hardcore =>
      (match workerStyle
       case Hardcore => Some(1.15) case SportsEnt => Some(1.05) case Lucha => Some(1.00)
       case Shoot => Some(0.95) case Mma => Some(0.90) case Unlisted(_) => None)
    case Mma =>
      (match workerStyle
       case Mma => Some(1.15) case Shoot => Some(1.08) case SportsEnt => Some(0.92)
       case Hardcore => Some(0.92) case Lucha => Some(0.95) case Unlisted(_) => None)
    case Lucha =>
      (match workerStyle
       case Lucha => Some(1.15) case SportsEnt => Some(1.05) case Shoot => Some(0.95)
       case Hardcore => Some(0.95) case Mma => Some(0.92) case Unlisted(_) => None)
    case Shoot =>
      (match workerStyle
       case Shoot => Some(1.15) case Mma => Some(1.08) case SportsEnt => Some(0.95)
       case Hardcore => Some(0.95) case Lucha => Some(0.98) case Unlisted(_) => None)
    case Unlisted(_) => None
  }

  /** The fit table's entry for a worker's style in a federation's style;
      1.0 when the federation's style has no row or the row no entry. */
  function StyleFit(workerStyle: Style, fedStyle: Style): real {
    TableEntry(fedStyle, workerStyle).GetOr(1.0)
  }

  predicate Listed(s: Style) {
    !s.Unlisted?
  }

  /** A federation style outside the table, or a worker style missing from
      the row, gives the neutral multiplier 1.0; a listed pair gives its entry. */
  lemma {:induction false} StyleFitDefault(workerStyle: Style, fedStyle: Style)
    ensures !Listed(fedStyle) || !Listed(workerStyle) ==> StyleFit(workerStyle, fedStyle) == 1.0
    ensures Listed(fedStyle) && Listed(workerStyle) <==> TableEntry(fedStyle, workerStyle).Some?
  {
  }

  /** Every multiplier lies in [0.90, 1.15]; a style's own entry is 1.15 and
      no entry of its row is larger. */
  lemma {:induction false} StyleFitBounds(workerStyle: Style, fedStyle: Style)
    ensures 0.90 <= StyleFit(workerStyle, fedStyle) <= 1.15
    ensures Listed(fedStyle) ==> StyleFit(fedStyle, fedStyle) == 1.15
    ensures StyleFit(workerStyle, fedStyle) <= StyleFit(fedStyle, fedStyle) || !Listed(fedStyle)
  {
  }

  // ------------------------------------------------------------ star power

  function Base(w: Worker): real {
    0.6 * (w.skill as real) + 0.3 * (w.charisma as real) + 0.1 * (w.prestige as real)
  }

  /** `star_score`: the weighted attributes times the style fit, plus the
      integer form swing `form` the source draws from [-10, 10]. */
  function StarScore(w: Worker, fedStyle: Style, form: int): (r: real)
    ensures -10 <= form <= 10 && Base(w) >= 0.0 ==> Base(w) * 0.90 - 10.0 <= r <= Base(w) * 1.15 + 10.0
    ensures -10 <= form <= 10 && 0 <= w.skill <= 100 && 0 <= w.charisma <= 100 && 0 <= w.prestige <= 100 ==>
              -10.0 <= r <= 125.0
  {
    StyleFitBounds(w.style, fedStyle);
    var fit := StyleFit(w.style, fedStyle);
    var b := Base(w);
    assert 0 <= w.skill <= 100 && 0 <= w.charisma <= 100 && 0 <= w.prestige <= 100 ==> 0.0 <= b <= 100.0;
    ScaleBounds(b, fit);
    b * fit + (form as real)
  }

  lemma {:induction false} ScaleBounds(b: real, fit: real)
    requires 0.90 <= fit <= 1.15
    ensures b >= 0.0 ==> b * 0.90 <= b * fit <= b * 1.15
    ensures 0.0 <= b <= 100.0 ==> 0.0 <= b * fit <= 115.0
  {
  }

  // ------------------------------------------------------------ rules and recipes

  /** Whether the federation mixes genders; a record without the flag does. */
  predicate IntergenderAllowed(f: Federation) {
    f.allowIntergender.GetOr(true)
  }

  /** Whether the federation books tag matches; a record without the flag does not. */
  predicate TagAllowed(f: Federation) {
    f.allowTag.GetOr(false)
  }

  predicate TriosAllowed(f: Federation) {
    f.allowTrios.GetOr(false)
  }

  function Repeat(k: nat, n: nat): seq<nat> {
    seq(n, _ => k)
  }

  /** The team sizes `pick_recipe` chooses from (the source lists [k, k]
      pairs and takes element 0). */
  function RecipeChoices(f: Federation): seq<nat> {
    Repeat(1, 5) + (if TagAllowed(f) then Repeat(2, 3) else []) + (if TriosAllowed(f) then Repeat(3, 2) else [])
  }

  function Occurrences(s: seq<nat>, v: nat): nat {
    |set i | 0 <= i < |s| && s[i] == v|
  }

  /** The team size of the drawn recipe: 1 for an mma federation, otherwise the
      choice list entry the draw selects. */
  function PickRecipe(f: Federation, draw: nat): nat {
    if f.style == Mma then 1
    else
      var choices := RecipeChoices(f);
      choices[draw % |choices|]
  }

  /** The choice list: five 1s, then three 2s exactly when tag matches are
      allowed, then two 3s exactly when trios are allowed. */
  lemma {:induction false} RecipeChoicesContents(f: Federation)
    ensures var c := RecipeChoices(f);
      var tags := if TagAllowed(f) then 3 else 0;
      var trios := if TriosAllowed(f) then 2 else 0;
      && |c| == 5 + tags + trios
      && (forall i :: 0 <= i < 5 ==> c[i] == 1)
      && (forall i :: 5 <= i < 5 + tags ==> c[i] == 2)
      && (forall i :: 5 + tags <= i < |c| ==> c[i] == 3)
  {
  }

  /** The recipe is 1, 2 or 3; mma always gets 1, and 2 and 3 appear only
      when the federation's rules allow tag and trios matches. */
  lemma {:induction false} PickRecipeGated(f: Federation, draw: nat)
    ensures PickRecipe(f, draw) in {1, 2, 3}
    ensures f.style == Mma ==> PickRecipe(f, draw) == 1
    ensures PickRecipe(f, draw) == 2 ==> TagAllowed(f) && f.style != Mma
    ensures PickRecipe(f, draw) == 3 ==> TriosAllowed(f) && f.style != Mma
  {
    RecipeChoicesContents(f);
  }

  /** Every size the choice list holds is reachable by some draw. */
  lemma {:induction false} PickRecipeReachable(f: Federation, k: nat)
    requires f.style != Mma
    requires k == 1 || (k == 2 && TagAllowed(f)) || (k == 3 && TriosAllowed(f))
    ensures exists d: nat :: PickRecipe(f, d) == k
  {
    RecipeChoicesContents(f);
    var d := if k == 1 then 0 else if k == 2 then 5 else |RecipeChoices(f)| - 1;
    assert PickRecipe(f, d) == k;
  }

  // ------------------------------------------------------------ the pool

  /** A pool element: a worker id with that worker's gender. */
  datatype Entry = Entry(id: Id, gender: Gender)

  function Ids(es: seq<Entry>): (r: seq<Id>)
    ensures |r| == |es| && forall i :: 0 <= i < |es| ==> r[i] == es[i].id
  {
    if es == [] then [] else [es[0].id] + Ids(es[1..])
  }

  /** The member of `es` that carries id `v`. */
  ghost function IdOwner(es: seq<Entry>, v: Id): (e: Entry)
    requires v in Ids(es)
    ensures e in es && e.id == v
  {
    var t :| 0 <= t < |es| && Ids(es)[t] == v;
    es[t]
  }

  lemma {:induction false} OwnerId(es: seq<Entry>, e: Entry)
    requires e in es
    ensures e.id in Ids(es)
  {
    var t :| 0 <= t < |es| && es[t] == e;
    assert Ids(es)[t] == e.id;
  }

  predicate UniqueIds(es: seq<Entry>) {
    forall i, j :: 0 <= i < j < |es| ==> es[i].id != es[j].id
  }


  predicate AllOfGender(es: seq<Entry>, g: Gender) {
    forall e :: e in es ==> e.gender == g
  }

  /** The members of `es` of gender `g`, in order (one bucket of the gender grouping). */
  function OfGender(es: seq<Entry>, g: Gender): (r: seq<Entry>)
    ensures |r| <= |es|
    ensures forall e :: e in r <==> e in es && e.gender == g
    ensures UniqueIds(es) ==> UniqueIds(r)
  {
    if es == [] then []
    else
      var rest := OfGender(es[1..], g);
      assert forall e :: e in es[1..] ==> e in es;
      if es[0].gender == g then
        assert forall e :: e in rest ==> e in es[1..];
        assert UniqueIds(es) ==> forall e :: e in es[1..] ==> e.id != es[0].id;
        [es[0]] + rest
      else rest
  }

  /** The pool entries whose id is not among `ids`, in pool order. */
  function Without(es: seq<Entry>, ids: seq<Id>): (r: seq<Entry>)
    ensures |r| <= |es|
    ensures forall e :: e in r <==> e in es && e.id !in ids
    ensures UniqueIds(es) ==> UniqueIds(r)
  {
    if es == [] then []
    else
      var rest := Without(es[1..], ids);
      assert forall e :: e in es[1..] ==> e in es;
      if es[0].id in ids then rest
      else
        UniqueCons(es, rest);
        [es[0]] + rest
  }

  /** Putting the head of `es` back in front of members of its tail keeps
      the ids unique. */
  lemma {:induction false} UniqueCons(es: seq<Entry>, rest: seq<Entry>)
    requires es != []
    ensures UniqueIds(es) && UniqueIds(rest) && (forall e :: e in rest ==> e in es[1..]) ==>
      UniqueIds([es[0]] + rest)
  {
    if UniqueIds(es) && UniqueIds(rest) && (forall e :: e in rest ==> e in es[1..]) {
      var r := [es[0]] + rest;
      forall i, j | 0 <= i < j < |r| ensures r[i].id != r[j].id {
        if i == 0 {
          assert r[j] == rest[j - 1] && rest[j - 1] in es[1..];
        } else {
          assert r[i] == rest[i - 1] && r[j] == rest[j - 1];
        }
      }
    }
  }

  /** A team could be formed: k is positive and the pool (or, when
      intergender matches are off, one gender's bucket) holds k workers. */
  predicate Formable(k: int, pool: seq<Entry>, allowInter: bool) {
    && k > 0 && |pool| >= k
    && (allowInter || exists g :: |OfGender(pool, g)| >= k)
  }

  /** Two disjoint teams of size k could be formed from the pool. */
  predicate Pairable(k: int, pool: seq<Entry>, allowInter: bool) {
    if allowInter then k > 0 && |pool| >= 2 * k
    else
      && k > 0
      && ((exists g :: |OfGender(pool, g)| >= 2 * k)
          || (exists g, h :: g != h && |OfGender(pool, g)| >= k && |OfGender(pool, h)| >= k))
  }

  // ------------------------------------------------------------ counting lemmas

  lemma {:induction false} OfGenderAppend(a: seq<Entry>, b: seq<Entry>, g: Gender)
    ensures OfGender(a + b, g) == OfGender(a, g) + OfGender(b, g)
    decreases |a|
  {
    if a == [] {
      assert a + b == b;
    } else {
      assert (a + b)[1..] == a[1..] + b;
      OfGenderAppend(a[1..], b, g);
    }
  }

  lemma {:induction false} OfOneGender(a: seq<Entry>, g: Gender)
    requires forall e :: e in a ==> e.gender == g
    ensures OfGender(a, g) == a
    ensures forall h :: h != g ==> OfGender(a, h) == []
    decreases |a|
  {
    if a != [] {
      assert forall e :: e in a[1..] ==> e in a;
      OfOneGender(a[1..], g);
    }
  }

  lemma {:induction false} WithoutAbsent(es: seq<Entry>, ids: seq<Id>)
    requires forall e :: e in es ==> e.id !in ids
    ensures Without(es, ids) == es
    decreases |es|
  {
    if es != [] {
      assert es[0] in es && es == [es[0]] + es[1..];
      assert forall e :: e in es[1..] ==> e in es;
      WithoutAbsent(es[1..], ids);
    }
  }

  lemma {:induction false} WithoutWithout(es: seq<Entry>, x: seq<Id>, y: seq<Id>)
    ensures Without(Without(es, x), y) == Without(es, x + y)
    decreases |es|
  {
    if es != [] {
      WithoutWithout(es[1..], x, y);
    }
  }

  /** Removing one member of a pool with distinct ids shrinks it, and its
      gender's bucket, by one. */
  lemma {:induction false} RemoveOne(es: seq<Entry>, x: Entry)
    requires UniqueIds(es) && x in es
    ensures |Without(es, [x.id])| == |es| - 1
    ensures forall g :: |OfGender(Without(es, [x.id]), g)| ==
                        |OfGender(es, g)| - (if x.gender == g then 1 else 0)
    decreases |es|
  {
    var tail := es[1..];
    assert forall e :: e in tail ==> e in es;
    if es[0] == x {
      assert forall e :: e in tail ==> e.id != x.id;
      WithoutAbsent(tail, [x.id]);
    } else {
      assert x in tail;
      assert es[0].id != x.id;
      RemoveOne(tail, x);
    }
  }

  /** The rest of a team survives the removal of its first member. */
  lemma {:induction false} TailStaysIn(es: seq<Entry>, team: seq<Entry>)
    requires UniqueIds(team) && team != []
    requires forall e :: e in team ==> e in es
    ensures forall e :: e in team[1..] ==> e in Without(es, [team[0].id])
  {
    var es1 := Without(es, [team[0].id]);
    forall k | 1 <= k < |team| ensures team[k] in es1 {
      assert team[k] in team && team[0].id != team[k].id;
    }
    forall e | e in team[1..] ensures e in es1 {
      var k :| 0 <= k < |team[1..]| && team[1..][k] == e;
      assert team[k + 1] == e;
    }
  }

  /** Removing a team drawn from a pool with distinct ids takes exactly the
      team's members out of the pool and out of each gender's bucket. */
  lemma {:induction false} RemoveTeam(es: seq<Entry>, team: seq<Entry>)
    requires UniqueIds(es) && UniqueIds(team)
    requires forall e :: e in team ==> e in es
    ensures |Without(es, Ids(team))| == |es| - |team|
    ensures forall g :: |OfGender(Without(es, Ids(team)), g)| ==
                        |OfGender(es, g)| - |OfGender(team, g)|
    decreases |team|
  {
    if team == [] {
      WithoutAbsent(es, []);
    } else {
      var a, rest := team[0], team[1..];
      assert team == [a] + rest;
      assert Ids(team) == [a.id] + Ids(rest);
      var es1 := Without(es, [a.id]);
      WithoutWithout(es, [a.id], Ids(rest));
      RemoveOne(es, a);
      UniqueIdsTail(team);
      TailStaysIn(es, team);
      RemoveTeam(es1, rest);
      forall g ensures |OfGender(Without(es, Ids(team)), g)| == |OfGender(es, g)| - |OfGender(team, g)| {
        OfGenderAppend([a], rest, g);
      }
    }
  }

  lemma {:induction false} UniqueIdsTail(es: seq<Entry>)
    requires UniqueIds(es) && es != []
    ensures UniqueIds(es[1..])
  {
    forall i, j | 0 <= i < j < |es| - 1 ensures es[1..][i].id != es[1..][j].id {
      assert es[1..][i] == es[i + 1] && es[1..][j] == es[j + 1];
    }
  }

  lemma {:induction false} PairableFormable(k: int, pool: seq<Entry>, allowInter: bool)
    requires Pairable(k, pool, allowInter)
    ensures Formable(k, pool, allowInter)
  {
    if !allowInter {
      var g :| |OfGender(pool, g)| >= k;
    }
  }

  /** If two teams of size k fit in the pool, then whichever legal team A is
      drawn first, team B can still be formed from what is left. */
  lemma {:induction false} SecondTeamFormable(k: int, pool: seq<Entry>, team: seq<Entry>, allowInter: bool, g: Gender)
    requires Pairable(k, pool, allowInter)
    requires UniqueIds(pool) && UniqueIds(team) && |team| == k
    requires forall e :: e in team ==> e in pool
    requires !allowInter ==> AllOfGender(team, g)
    ensures Formable(k, Without(pool, Ids(team)), allowInter)
  {
    RemoveTeam(pool, team);
    if !allowInter {
      OfOneGender(team, g);
      GenderLeft(k, pool, Without(pool, Ids(team)), g);
    }
  }

  /** The gender arithmetic of SecondTeamFormable: taking k workers of gender
      g out of a pool that could field two single-gender teams leaves one. */
  lemma {:induction false} GenderLeft(k: int, pool: seq<Entry>, left: seq<Entry>, g: Gender)
    requires Pairable(k, pool, false)
    requires |left| == |pool| - k
    requires |OfGender(left, g)| == |OfGender(pool, g)| - k
    requires forall h :: h != g ==> |OfGender(left, h)| == |OfGender(pool, h)|
    ensures Formable(k, left, false)
  {
    if h :| |OfGender(pool, h)| >= 2 * k {
      assert |OfGender(left, h)| >= k;
    } else {
      var h1, h2 :| h1 != h2 && |OfGender(pool, h1)| >= k && |OfGender(pool, h2)| >= k;
      var h := if h1 != g then h1 else h2;
      assert |OfGender(left, h)| >= k;
    }
  }

  // ------------------------------------------------------------ team formation

  /** Sampling k members without replacement: k distinct positions, picked one at
      a time; `picks(next + t)` chooses among what is left at step t. */
  function Sample(pop: seq<Entry>, k: nat, picks: nat -> nat, next: nat): (r: seq<Entry>)
    requires k <= |pop| && UniqueIds(pop)
    ensures |r| == k && UniqueIds(r)
    ensures forall e :: e in r ==> e in pop
    decreases k
  {
    if k == 0 then []
    else
      var i := picks(next) % |pop|;
      var rest := pop[..i] + pop[i + 1..];
      assert forall t :: 0 <= t < |rest| ==> rest[t] == pop[if t < i then t else t + 1];
      assert UniqueIds(rest);
      var tail := Sample(rest, k - 1, picks, next + 1);
      assert forall e :: e in tail ==> e in rest && e.id != pop[i].id;
      [pop[i]] + tail
  }

  /** The draws one team takes: which eligible gender, and the sample positions. */
  datatype TeamDraw = TeamDraw(gender: nat, picks: nat -> nat)

  /** `can_form_team`: None exactly when no team of size k can be formed;
      otherwise k pool members with distinct ids, all of one gender when
      intergender matches are off. */
  method CanFormTeam(k: int, pool: seq<Entry>, allowInter: bool, draw: TeamDraw)
    returns (team: Option<seq<Entry>>)
    requires UniqueIds(pool)
    ensures team.None? <==> !Formable(k, pool, allowInter)
    ensures team.Some? ==> |team.value| == k && UniqueIds(team.value)
    ensures team.Some? ==> forall e :: e in team.value ==> e in pool
    ensures team.Some? && !allowInter ==> exists g :: AllOfGender(team.value, g)
  {
    if k <= 0 || |pool| < k {
      return None;
    }
    if allowInter {
      return Some(Sample(pool, k, draw.picks, 0));
    }
    var byG, seen := GroupByGender(pool);
    var genders := Eligible(byG, seen, k);
    if genders == [] {
      forall h ensures |OfGender(pool, h)| < k {
        if h !in byG {
          assert OfGender(pool, h) == [];
        } else {
          assert h !in genders;
        }
      }
      return None;
    }
    var g := genders[draw.gender % |genders|];
    assert g in byG && |OfGender(pool, g)| >= k;
    var bucket := byG[g];
    var picked := Sample(bucket, k, draw.picks, 0);
    assert AllOfGender(picked, g);
    team := Some(picked);
  }

  /** The `by_g` buckets of `can_form_team`, with the genders in the order
      they first appear (the dict's key order). */
  lemma OfGenderSnoc(es: seq<Entry>, p: Entry, g: Gender)
    ensures OfGender(es + [p], g) == OfGender(es, g) + (if p.gender == g then [p] else [])
  {
    OfGenderAppend(es, [p], g);
    assert [p][1..] == [];
  }

  method GroupByGender(pool: seq<Entry>) returns (byG: map<Gender, seq<Entry>>, seen: seq<Gender>)
    ensures forall g :: g in byG <==> g in seen
    ensures forall g :: g in byG ==> byG[g] == OfGender(pool, g)
    ensures forall g :: g !in byG ==> OfGender(pool, g) == []
    ensures NoDup(seen)
  {
    byG, seen := map[], [];
    for i := 0 to |pool|
      invariant forall g :: g in byG <==> g in seen
      invariant forall g :: g in byG ==> byG[g] == OfGender(pool[..i], g)
      invariant forall g :: g !in byG ==> OfGender(pool[..i], g) == []
      invariant NoDup(seen)
    {
      var p := pool[i];
      assert pool[..i + 1] == pool[..i] + [p];
      forall g ensures OfGender(pool[..i + 1], g) == OfGender(pool[..i], g) + (if p.gender == g then [p] else []) {
        OfGenderSnoc(pool[..i], p, g);
      }
      if p.gender !in byG {
        byG := byG[p.gender := []];
        seen := seen + [p.gender];
      }
      byG := byG[p.gender := byG[p.gender] + [p]];
    }
    assert pool[..|pool|] == pool;
  }

  /** The genders, in the order first seen, whose bucket holds at least k entries. */
  method Eligible(byG: map<Gender, seq<Entry>>, seen: seq<Gender>, k: int) returns (genders: seq<Gender>)
    requires forall g :: g in seen ==> g in byG
    ensures forall g :: g in genders <==> g in seen && |byG[g]| >= k
  {
    genders := [];
    for j := 0 to |seen|
      invariant forall g :: g in genders <==> g in seen[..j] && |byG[g]| >= k
    {
      assert seen[..j + 1] == seen[..j] + [seen[j]];
      if |byG[seen[j]]| >= k {
        genders := genders + [seen[j]];
      }
    }
    assert seen[..|seen|] == seen;
  }

  /** `pop_ids`: the ids of the picks, and the pool without them. */
  function PopIds(picks: seq<Entry>, pool: seq<Entry>): (r: (seq<Id>, seq<Entry>))
    ensures r.0 == Ids(picks)
    ensures forall e :: e in r.1 <==> e in pool && e.id !in Ids(picks)
  {
    var ids := Ids(picks);
    (ids, Without(pool, ids))
  }

  // ------------------------------------------------------------ the card

  /** One booked slot: team A against team B. */
  datatype Slot = Slot(a: seq<Id>, b: seq<Id>)

  /** The draws one slot takes. */
  datatype SlotDraw = SlotDraw(recipe: nat, teamA: TeamDraw, teamB: TeamDraw)

  /** The draws `ensure_card` takes: the shuffle, then one set per slot. */
  datatype BookingDraws = BookingDraws(shuffle: nat -> nat, slots: nat -> SlotDraw)

  /** Every id booked on the card, slot by slot. */
  function Booked(card: seq<Slot>): seq<Id> {
    if card == [] then [] else Booked(card[..|card| - 1]) + card[|card| - 1].a + card[|card| - 1].b
  }

  lemma {:induction false} InBooked(card: seq<Slot>, i: nat, x: Id)
    requires i < |card| && x in card[i].a + card[i].b
    ensures x in Booked(card)
    decreases |card|
  {
    if i < |card| - 1 {
      InBooked(card[..|card| - 1], i, x);
    }
  }

  predicate Disjoint(x: seq<Id>, y: seq<Id>) {
    forall v :: v in x ==> v !in y
  }

  /** All of `ids` belong to workers of one gender in the pool. */
  predicate SingleGender(ids: seq<Id>, pool: seq<Entry>) {
    exists g :: IdsOfGender(ids, pool, g)
  }

  predicate IdsOfGender(ids: seq<Id>, pool: seq<Entry>, g: Gender) {
    forall v :: v in ids ==> Entry(v, g) in pool
  }

  /** What every prefix of a card built from `pool` satisfies: slot i has
      two teams of the size its recipe draw selects, no id is booked twice,
      every booked id comes from the pool, and teams are single-gender when
      intergender matches are off. */
  predicate CardOk(card: seq<Slot>, pool: seq<Entry>, fed: Federation, draws: BookingDraws) {
    && (forall i :: 0 <= i < |card| ==>
          |card[i].a| == |card[i].b| == PickRecipe(fed, draws.slots(i).recipe))
    && (forall i :: 0 <= i < |card| ==> NoDup(card[i].a + card[i].b))
    && (forall i, j :: 0 <= i < j < |card| ==> Disjoint(card[i].a + card[i].b, card[j].a + card[j].b))
    && (forall i, v :: 0 <= i < |card| && v in card[i].a + card[i].b ==> v in Ids(pool))
    && (!IntergenderAllowed(fed) ==>
          forall i :: 0 <= i < |card| ==> SingleGender(card[i].a, pool) && SingleGender(card[i].b, pool))
  }

  /** The slot loop of `ensure_card`: at most four slots, a card satisfying
      CardOk, and booking stops early only when the remaining pool cannot
      supply two teams of the next drawn size. */
  method BuildCard(pool: seq<Entry>, fed: Federation, draws: BookingDraws) returns (card: seq<Slot>)
    requires UniqueIds(pool)
    ensures |card| <= 4
    ensures CardOk(card, pool, fed, draws)
    ensures |card| < 4 ==>
      !Pairable(PickRecipe(fed, draws.slots(|card|).recipe), Without(pool, Booked(card)), IntergenderAllowed(fed))
  {
    var rest := pool;
    card := [];
    var allowInter := IntergenderAllowed(fed);
    WithoutAbsent(pool, []);
    for slot := 0 to 4
      invariant |card| == slot
      invariant rest == Without(pool, Booked(card))
      invariant CardOk(card, pool, fed, draws)
    {
      var k := PickRecipe(fed, draws.slots(slot).recipe);
      var a := CanFormTeam(k, rest, allowInter, draws.slots(slot).teamA);
      if a.None? {
        if Pairable(k, rest, allowInter) {
          PairableFormable(k, rest, allowInter);
        }
        break;
      }
      var popA := PopIds(a.value, rest);
      var aIds, afterA := popA.0, popA.1;
      var b := CanFormTeam(k, afterA, allowInter, draws.slots(slot).teamB);
      if b.None? {
        if Pairable(k, rest, allowInter) {
          var g: Gender :| !allowInter ==> AllOfGender(a.value, g);
          SecondTeamFormable(k, rest, a.value, allowInter, g);
        }
        // Team A goes back on the end of the pool; the loop then stops
        rest := afterA + a.value;
        break;
      }
      var popB := PopIds(b.value, afterA);
      var bIds, afterB := popB.0, popB.1;
      BookSlot(pool, card, rest, a.value, b.value, allowInter);
      ExtendCard(card, pool, fed, draws, aIds, bIds);
      WithoutWithout(rest, aIds, bIds);
      card := card + [Slot(aIds, bIds)];
      rest := afterB;
    }
  }

  /** Appending a slot whose teams have the drawn size and satisfy the
      facts BookSlot establishes keeps CardOk, and the pool left over is the
      pool without every booked id. */
  lemma {:induction false} ExtendCard(card: seq<Slot>, pool: seq<Entry>, fed: Federation, draws: BookingDraws,
                                      aIds: seq<Id>, bIds: seq<Id>)
    requires CardOk(card, pool, fed, draws)
    requires |aIds| == |bIds| == PickRecipe(fed, draws.slots(|card|).recipe)
    requires NoDup(aIds + bIds)
    requires forall i :: 0 <= i < |card| ==> Disjoint(card[i].a + card[i].b, aIds + bIds)
    requires forall v :: v in aIds + bIds ==> v in Ids(pool)
    requires !IntergenderAllowed(fed) ==> SingleGender(aIds, pool) && SingleGender(bIds, pool)
    ensures CardOk(card + [Slot(aIds, bIds)], pool, fed, draws)
    ensures Without(Without(pool, Booked(card)), aIds + bIds) == Without(pool, Booked(card + [Slot(aIds, bIds)]))
  {
    var card' := card + [Slot(aIds, bIds)];
    assert card'[..|card|] == card;
    assert Booked(card') == Booked(card) + (aIds + bIds);
    WithoutWithout(pool, Booked(card), aIds + bIds);
    SlotAppended(card, pool, fed, draws, aIds, bIds);
  }

  /** The CardOk half of ExtendCard, slot by slot. */
  lemma {:induction false} SlotAppended(card: seq<Slot>, pool: seq<Entry>, fed: Federation, draws: BookingDraws,
                                        aIds: seq<Id>, bIds: seq<Id>)
    requires CardOk(card, pool, fed, draws)
    requires |aIds| == |bIds| == PickRecipe(fed, draws.slots(|card|).recipe)
    requires NoDup(aIds + bIds)
    requires forall i :: 0 <= i < |card| ==> Disjoint(card[i].a + card[i].b, aIds + bIds)
    requires forall v :: v in aIds + bIds ==> v in Ids(pool)
    requires !IntergenderAllowed(fed) ==> SingleGender(aIds, pool) && SingleGender(bIds, pool)
    ensures CardOk(card + [Slot(aIds, bIds)], pool, fed, draws)
  {
    var s := Slot(aIds, bIds);
    var card' := card + [s];
    forall i | 0 <= i < |card'|
      ensures |card'[i].a| == |card'[i].b| == PickRecipe(fed, draws.slots(i).recipe)
      ensures NoDup(card'[i].a + card'[i].b)
      ensures forall v :: v in card'[i].a + card'[i].b ==> v in Ids(pool)
      ensures !IntergenderAllowed(fed) ==> SingleGender(card'[i].a, pool) && SingleGender(card'[i].b, pool)
    {
      if i < |card| {
        assert card'[i] == card[i];
      } else {
        assert card'[i] == s;
      }
    }
    forall i, j | 0 <= i < j < |card'|
      ensures Disjoint(card'[i].a + card'[i].b, card'[j].a + card'[j].b)
    {
      assert card'[i] == card[i];
      if j < |card| {
        assert card'[j] == card[j];
      } else {
        assert card'[j] == s;
      }
    }
  }

  /** The facts one completed slot adds to the loop invariant of BuildCard. */
  lemma {:induction false} BookSlot(pool: seq<Entry>, card: seq<Slot>, rest: seq<Entry>, a: seq<Entry>, b: seq<Entry>,
                 allowInter: bool)
    requires UniqueIds(pool) && rest == Without(pool, Booked(card))
    requires UniqueIds(a) && forall e :: e in a ==> e in rest
    requires UniqueIds(b) && forall e :: e in b ==> e in Without(rest, Ids(a))
    requires !allowInter ==> (exists g :: AllOfGender(a, g))
    requires !allowInter ==> (exists g :: AllOfGender(b, g))
    ensures NoDup(Ids(a) + Ids(b))
    ensures forall i :: 0 <= i < |card| ==> Disjoint(card[i].a + card[i].b, Ids(a) + Ids(b))
    ensures forall v :: v in Ids(a) + Ids(b) ==> v in Ids(pool)
    ensures !allowInter ==> SingleGender(Ids(a), pool) && SingleGender(Ids(b), pool)
  {
    TeamsFromRest(pool, card, rest, a, b);
    ApartFromCard(card, Ids(a) + Ids(b));
    TeamsNoDup(a, b, rest);
    if !allowInter {
      var ga :| AllOfGender(a, ga);
      TeamGenderIds(a, pool, ga);
      var gb :| AllOfGender(b, gb);
      TeamGenderIds(b, pool, gb);
    }
  }

  /** Both teams' ids come from the pool and are not yet booked. */
  lemma {:induction false} TeamsFromRest(pool: seq<Entry>, card: seq<Slot>, rest: seq<Entry>, a: seq<Entry>, b: seq<Entry>)
    requires rest == Without(pool, Booked(card))
    requires forall e :: e in a ==> e in rest
    requires forall e :: e in b ==> e in Without(rest, Ids(a))
    ensures forall v :: v in Ids(a) + Ids(b) ==> v in Ids(pool) && v !in Booked(card)
  {
    forall v | v in Ids(a) + Ids(b) ensures v in Ids(pool) && v !in Booked(card) {
      var e := if v in Ids(a) then IdOwner(a, v) else IdOwner(b, v);
      assert e in rest;
      OwnerId(pool, e);
    }
  }

  /** Ids outside Booked(card) share none with any slot of the card. */
  lemma {:induction false} ApartFromCard(card: seq<Slot>, ids: seq<Id>)
    requires forall v :: v in ids ==> v !in Booked(card)
    ensures forall i :: 0 <= i < |card| ==> Disjoint(card[i].a + card[i].b, ids)
  {
    forall i | 0 <= i < |card| ensures Disjoint(card[i].a + card[i].b, ids) {
      forall v | v in card[i].a + card[i].b ensures v !in ids {
        InBooked(card, i, v);
      }
    }
  }

  /** Team B drawn from what team A left: together they repeat no id. */
  lemma {:induction false} TeamsNoDup(a: seq<Entry>, b: seq<Entry>, rest: seq<Entry>)
    requires UniqueIds(a) && UniqueIds(b)
    requires forall e :: e in b ==> e in Without(rest, Ids(a))
    ensures NoDup(Ids(a) + Ids(b))
  {
    var ia, ib := Ids(a), Ids(b);
    assert Disjoint(ia, ib) by {
      forall v | v in ib ensures v !in ia {
        var e := IdOwner(b, v);
      }
    }
    forall i, j | 0 <= i < j < |ia + ib| ensures (ia + ib)[i] != (ia + ib)[j] {
      if j < |ia| {
      } else if i >= |ia| {
        assert (ia + ib)[i] == ib[i - |ia|] && (ia + ib)[j] == ib[j - |ia|];
      } else {
        assert (ia + ib)[i] in ia && (ia + ib)[j] in ib;
      }
    }
  }

  /** A team of one gender, drawn from the pool, has ids of that gender there. */
  lemma {:induction false} TeamGenderIds(t: seq<Entry>, pool: seq<Entry>, g: Gender)
    requires AllOfGender(t, g)
    requires forall e :: e in t ==> e in pool
    ensures IdsOfGender(Ids(t), pool, g)
  {
    forall v | v in Ids(t) ensures Entry(v, g) in pool {
      var e := IdOwner(t, v);
      assert e == Entry(v, g);
    }
  }

  // ------------------------------------------------------------ ensure_card

  /** The shuffle of the pool (CPython's Fisher–Yates): position i, from the last
      down to 1, swaps with position `tape(t) % (i + 1)`, t counting the swaps
      made so far. The result is a permutation of the input. */
  method Shuffle<T>(s: seq<T>, tape: nat -> nat) returns (r: seq<T>)
    ensures multiset(r) == multiset(s)
  {
    r := s;
    var i := |r|;
    while i > 1
      invariant 0 <= i <= |s| && |r| == |s|
      invariant multiset(r) == multiset(s)
    {
      i := i - 1;
      var j := tape(|s| - 1 - i) % (i + 1);
      r := r[i := r[j]][j := r[i]];
    }
  }

  lemma {:induction false} AtMostOnce(s: seq<Entry>, e: Entry)
    requires UniqueIds(s)
    ensures multiset(s)[e] <= 1
    decreases |s|
  {
    if s != [] {
      assert s == [s[0]] + s[1..];
      assert UniqueIds(s[1..]);
      AtMostOnce(s[1..], e);
      if s[0] == e {
        assert e !in s[1..];
      }
    }
  }

  lemma {:induction false} TwiceCounted<T>(r: seq<T>, p: nat, q: nat)
    requires p < q < |r| && r[p] == r[q]
    ensures multiset(r)[r[p]] >= 2
  {
    assert r == r[..q] + r[q..];
    assert r[..q][p] == r[p];
    assert r[q..][0] == r[p];
  }

  /** A permutation of a pool with distinct ids has distinct ids. */
  lemma {:induction false} UniqueIdsPermutation(s: seq<Entry>, r: seq<Entry>)
    requires UniqueIds(s) && multiset(r) == multiset(s)
    ensures UniqueIds(r)
  {
    forall p, q | 0 <= p < q < |r| ensures r[p].id != r[q].id {
      if r[p].id == r[q].id {
        assert r[p] in multiset(s) && r[q] in multiset(s);
        var x :| 0 <= x < |s| && s[x] == r[p];
        var y :| 0 <= y < |s| && s[y] == r[q];
        if x == y {
          TwiceCounted(r, p, q);
          AtMostOnce(s, r[p]);
        }
        assert false;
      }
    }
  }

  /** The order in which a Python set yields its members: some order, each
      member once. */
  method ListIds(s: set<Id>) returns (r: seq<Id>)
    ensures NoDup(r)
    ensures forall v :: v in r <==> v in s
  {
    r := [];
    var left := s;
    while left != {}
      invariant left <= s
      invariant forall v :: v in r <==> v in s && v !in left
      invariant NoDup(r)
      decreases |left|
    {
      var v :| v in left;
      r := r + [v];
      left := left - {v};
    }
  }

  /** Each roster id paired with its worker's gender, in roster order. */
  function EntriesOf(ids: seq<Id>, workers: map<Id, Worker>): seq<Entry>
    requires forall v :: v in ids ==> v in workers
  {
    seq(|ids|, i requires 0 <= i < |ids| => Entry(ids[i], workers[ids[i]].gender))
  }

  /** A show already has a card when some match belongs to it. */
  predicate HasCard(matches: map<Id, Match>, showId: Id) {
    exists m :: m in matches && matches[m].showId == showId
  }

  /** The matches of every other show are neither changed nor added, and
      the show's own matches stay its own. */
  ghost predicate OtherShowsKept(before: map<Id, Match>, after: map<Id, Match>, showId: Id) {
    && (forall x :: x in before && before[x].showId != showId ==> x in after && after[x] == before[x])
    && (forall x :: x in before && before[x].showId == showId ==> x in after && after[x].showId == showId)
    && (forall x :: x in after && after[x].showId != showId ==> x in before)
  }

  /** The record `ensure_card` stores for slot `i` of the card. */
  function CardMatch(showId: Id, i: nat, s: Slot): Match {
    Match(showId, i + 1, "Standard", false, s.a + s.b, [s.a, s.b], None, "")
  }

  /** The pool booking draws from: each worker of `roster` exactly once,
      with the gender the worker table gives it. */
  predicate RosterEntries(pool: seq<Entry>, roster: set<Id>, workers: map<Id, Worker>) {
    && UniqueIds(pool)
    && (forall e :: e in pool ==> e.id in roster && e.id in workers && e.gender == workers[e.id].gender)
    && (forall v :: v in roster ==> v in workers && Entry(v, workers[v].gender) in pool)
  }

  /** `ensure_card`. A show that already has a match is left alone.
      Otherwise the roster employed for the show's week is shuffled into
      `shuffled` and BuildCard books the slots of `card`, at most four, each
      stored as a fresh match with orders 1, 2, ...: two teams of the size
      the slot's recipe draw selects, participants team A then team B, no
      result yet. No worker appears twice on the card, every participant is
      employed by the show's federation for the show's week, and teams are
      single-gender when the federation does not allow intergender matches.
      Booking stops short of four slots only when what is left of the
      shuffled roster cannot field two teams of the next drawn size. */
  method EnsureCard(u: Universe, showId: Id, draws: BookingDraws)
    returns (created: seq<Id>, shuffled: seq<Entry>, card: seq<Slot>)
    requires u.Valid() && showId in u.shows
    modifies u`matches, u`nextId
    ensures u.Valid()
    ensures HasCard(old(u.matches), showId) ==>
      created == [] && card == [] && u.matches == old(u.matches) && u.nextId == old(u.nextId)
    ensures |created| <= 4 && NoDup(created)
    ensures forall c :: c in created ==> c !in old(u.matches)
    ensures forall m :: m in u.matches <==> m in old(u.matches) || m in created
    ensures forall m :: m in old(u.matches) ==> u.matches[m] == old(u.matches)[m]
    ensures RosterEntries(shuffled, EmployedWorkers(u.employment, u.shows[showId].fedId, Some(u.shows[showId].week),
                                                    u.currentWeek), u.workers)
    ensures |created| == |card| && CardOk(card, shuffled, u.federations[u.shows[showId].fedId], draws)
    ensures forall i :: 0 <= i < |card| ==> u.matches[created[i]] == CardMatch(showId, i, card[i])
    ensures var fed := u.federations[u.shows[showId].fedId];
      !HasCard(old(u.matches), showId) && |card| < 4 ==>
        !Pairable(PickRecipe(fed, draws.slots(|card|).recipe), Without(shuffled, Booked(card)), IntergenderAllowed(fed))
    ensures CardStored(u.matches, created, showId, u.federations[u.shows[showId].fedId], draws,
                       EmployedWorkers(u.employment, u.shows[showId].fedId, Some(u.shows[showId].week), u.currentWeek))
    ensures !IntergenderAllowed(u.federations[u.shows[showId].fedId]) ==>
      forall i :: 0 <= i < |created| ==> SingleGenderTeams(u.matches[created[i]].teams, u.workers)
    ensures OtherShowsKept(old(u.matches), u.matches, showId)
  {
    // The source also drops already-booked workers from the pool, but it
    // only gets past the next test when the show has no match, and then
    // nothing is booked.
    if HasCard(u.matches, showId) {
      var show := u.shows[showId];
      var roster := EmployedWorkers(u.employment, show.fedId, Some(show.week), u.currentWeek);
      var rosterIds := ListIds(roster);
      assert forall v :: v in roster ==> v in u.workers;
      var pool := EntriesOf(rosterIds, u.workers);
      assert UniqueIds(pool);
      PoolEntries(rosterIds, roster, u.workers, pool, pool);
      created, shuffled, card := [], pool, [];
      return;
    }
    created, shuffled, card := BookCard(u, showId, draws);
  }

  /** The booking path of `ensure_card`, for a show without matches: the
      roster's entries are shuffled and the card built from them is stored,
      match i of the card under `created[i]`. */
  method BookCard(u: Universe, showId: Id, draws: BookingDraws)
    returns (created: seq<Id>, shuffled: seq<Entry>, card: seq<Slot>)
    requires u.Valid() && showId in u.shows && !HasCard(u.matches, showId)
    modifies u`matches, u`nextId
    ensures u.Valid()
    ensures |created| <= 4 && NoDup(created)
    ensures forall c :: c in created ==> c !in old(u.matches)
    ensures forall m :: m in u.matches <==> m in old(u.matches) || m in created
    ensures forall m :: m in old(u.matches) ==> u.matches[m] == old(u.matches)[m]
    ensures RosterEntries(shuffled, EmployedWorkers(u.employment, u.shows[showId].fedId, Some(u.shows[showId].week),
                                                    u.currentWeek), u.workers)
    ensures |created| == |card| && CardOk(card, shuffled, u.federations[u.shows[showId].fedId], draws)
    ensures forall i :: 0 <= i < |card| ==> u.matches[created[i]] == CardMatch(showId, i, card[i])
    ensures var fed := u.federations[u.shows[showId].fedId];
      |card| < 4 ==>
        !Pairable(PickRecipe(fed, draws.slots(|card|).recipe), Without(shuffled, Booked(card)), IntergenderAllowed(fed))
    ensures CardStored(u.matches, created, showId, u.federations[u.shows[showId].fedId], draws,
                       EmployedWorkers(u.employment, u.shows[showId].fedId, Some(u.shows[showId].week), u.currentWeek))
    ensures !IntergenderAllowed(u.federations[u.shows[showId].fedId]) ==>
      forall i :: 0 <= i < |created| ==> SingleGenderTeams(u.matches[created[i]].teams, u.workers)
    ensures OtherShowsKept(old(u.matches), u.matches, showId)
  {
    var show := u.shows[showId];
    var fid := show.fedId;
    var fed := u.federations[fid];
    var roster := EmployedWorkers(u.employment, fid, Some(show.week), u.currentWeek);
    var rosterIds := ListIds(roster);
    assert forall v :: v in roster ==> v in u.workers;
    var pool := EntriesOf(rosterIds, u.workers);
    assert UniqueIds(pool);
    shuffled := Shuffle(pool, draws.shuffle);
    UniqueIdsPermutation(pool, shuffled);
    PoolEntries(rosterIds, roster, u.workers, pool, shuffled);
    card := BuildCard(shuffled, fed, draws);
    CardFits(u.shows, u.workers, showId, card, shuffled, pool, rosterIds, roster, fed, draws);
    ghost var before := u.matches;
    created := StoreAll(u, CardRecords(showId, card));
    CardBooked(before, u.matches, created, card, showId, shuffled, pool, rosterIds, roster, u.workers, fed, draws);
  }

  /** The roster's entries, in any order, are the roster's workers once each
      with their genders. */
  lemma {:induction false} PoolEntries(rosterIds: seq<Id>, roster: set<Id>, workers: map<Id, Worker>,
                                       pool: seq<Entry>, shuffled: seq<Entry>)
    requires NoDup(rosterIds) && forall v :: v in rosterIds <==> v in roster
    requires forall v :: v in roster ==> v in workers
    requires pool == EntriesOf(rosterIds, workers) && multiset(shuffled) == multiset(pool)
    requires UniqueIds(shuffled)
    ensures RosterEntries(shuffled, roster, workers)
  {
    forall e | e in shuffled ensures e.id in roster && e.id in workers && e.gender == workers[e.id].gender {
      assert e in multiset(pool);
    }
    forall v | v in roster ensures v in workers && Entry(v, workers[v].gender) in shuffled {
      var i :| 0 <= i < |rosterIds| && rosterIds[i] == v;
      assert pool[i] == Entry(v, workers[v].gender);
      assert Entry(v, workers[v].gender) in multiset(shuffled);
    }
  }

  /** Taking the entries of one id out of a pool with distinct ids removes
      at most one entry. */
  lemma {:induction false} OneGone(es: seq<Entry>, v: Id)
    requires UniqueIds(es)
    ensures |Without(es, [v])| >= |es| - 1
  {
    if exists x :: x in es && x.id == v {
      var x :| x in es && x.id == v;
      RemoveOne(es, x);
    } else {
      WithoutAbsent(es, [v]);
    }
  }

  /** Removing n ids from a pool with distinct ids leaves at least |pool| - n
      entries. */
  lemma {:induction false} WithoutAtLeast(es: seq<Entry>, ids: seq<Id>)
    requires UniqueIds(es)
    ensures |Without(es, ids)| >= |es| - |ids|
    decreases |ids|
  {
    if ids == [] {
      WithoutAbsent(es, ids);
    } else {
      assert [ids[0]] + ids[1..] == ids;
      WithoutWithout(es, [ids[0]], ids[1..]);
      OneGone(es, ids[0]);
      WithoutAtLeast(Without(es, [ids[0]]), ids[1..]);
    }
  }

  /** A card whose slots all hold two teams of size k books 2k ids per slot. */
  lemma {:induction false} BookedLength(card: seq<Slot>, k: nat)
    requires forall i :: 0 <= i < |card| ==> |card[i].a| == k && |card[i].b| == k
    ensures |Booked(card)| == 2 * k * |card|
    decreases |card|
  {
    if card != [] {
      var init := card[..|card| - 1];
      assert forall i :: 0 <= i < |init| ==> init[i] == card[i];
      BookedLength(init, k);
      assert |Booked(card)| == |Booked(init)| + 2 * k;
      assert 2 * k * |card| == 2 * k * |init| + 2 * k;
    }
  }

  /** An mma federation that allows intergender matches books a full card
      of four singles matches from any pool of eight or more workers: the
      stopping rule of BuildCard cannot fire earlier. */
  lemma {:induction false} FullCardFromEight(card: seq<Slot>, pool: seq<Entry>, fed: Federation, draws: BookingDraws)
    requires UniqueIds(pool) && CardOk(card, pool, fed, draws) && |card| <= 4
    requires |card| < 4 ==>
      !Pairable(PickRecipe(fed, draws.slots(|card|).recipe), Without(pool, Booked(card)), IntergenderAllowed(fed))
    requires fed.style == Mma && IntergenderAllowed(fed) && |pool| >= 8
    ensures |card| == 4
  {
    forall i | 0 <= i <= |card| ensures PickRecipe(fed, draws.slots(i).recipe) == 1 {
      PickRecipeGated(fed, draws.slots(i).recipe);
    }
    BookedLength(card, 1);
    WithoutAtLeast(pool, Booked(card));
    assert |card| < 4 ==> Pairable(1, Without(pool, Booked(card)), true);
  }

  /** A card drawn from the shuffled roster of a show fits the store: every
      participant comes from the roster and every match is well formed. */
  lemma {:induction false} CardFits(shows: map<Id, Show>, workers: map<Id, Worker>, showId: Id, card: seq<Slot>,
                                    shuffled: seq<Entry>, pool: seq<Entry>, rosterIds: seq<Id>, roster: set<Id>,
                                    fed: Federation, draws: BookingDraws)
    requires showId in shows && CardOk(card, shuffled, fed, draws)
    requires forall v :: v in rosterIds <==> v in roster
    requires forall x :: x in rosterIds ==> x in workers
    requires pool == EntriesOf(rosterIds, workers) && multiset(shuffled) == multiset(pool)
    ensures forall i, v :: 0 <= i < |card| && v in card[i].a + card[i].b ==> v in roster
    ensures forall i :: 0 <= i < |card| ==> MatchFits(CardMatch(showId, i, card[i]), shows, workers)
  {
    forall i, v | 0 <= i < |card| && v in card[i].a + card[i].b ensures v in roster {
      FromRoster(shuffled, pool, rosterIds, workers, v);
    }
    forall i | 0 <= i < |card| ensures MatchFits(CardMatch(showId, i, card[i]), shows, workers) {
      BookedMatchFits(shows, workers, showId, card, shuffled, fed, draws, i);
    }
  }

  /** What storing a drawn card leaves behind (`CardStored`, other shows
      untouched, single-gender teams where the rules ask for them). */
  lemma {:induction false} CardBooked(before: map<Id, Match>, after: map<Id, Match>, created: seq<Id>,
                                      card: seq<Slot>, showId: Id, shuffled: seq<Entry>, pool: seq<Entry>,
                                      rosterIds: seq<Id>, roster: set<Id>, workers: map<Id, Worker>,
                                      fed: Federation, draws: BookingDraws)
    requires CardOk(card, shuffled, fed, draws)
    requires forall i, v :: 0 <= i < |card| && v in card[i].a + card[i].b ==> v in roster
    requires forall x :: x in rosterIds ==> x in workers
    requires pool == EntriesOf(rosterIds, workers) && multiset(shuffled) == multiset(pool)
    requires |created| == |card|
    requires forall m :: m in after <==> m in before || m in created
    requires forall m :: m in before ==> after[m] == before[m]
    requires forall i :: 0 <= i < |card| ==> after[created[i]] == CardMatch(showId, i, card[i])
    ensures CardStored(after, created, showId, fed, draws, roster)
    ensures OtherShowsKept(before, after, showId)
    ensures !IntergenderAllowed(fed) ==>
      forall i :: 0 <= i < |created| ==> SingleGenderTeams(after[created[i]].teams, workers)
  {
    assert forall i :: 0 <= i < |card| ==> created[i] in after && after[created[i]] == CardMatch(showId, i, card[i]);
    StoredCardFacts(after, created, card, showId, shuffled, fed, draws, roster);
    CardKeepsOthers(before, after, created, showId, fed, draws, roster);
    if !IntergenderAllowed(fed) {
      StoredGenders(after, created, card, showId, shuffled, pool, rosterIds, workers, fed, draws);
    }
  }

  /** The matches `created` hold, in order, a card for show `showId`:
      match i has order i + 1, the standard stipulation, no title, no result
      and no recap; two teams of the size slot i's recipe draw selects, with
      participants team A then team B; no worker twice in a match or in two
      matches; and every participant from `roster`. */
  predicate CardStored(ms: map<Id, Match>, created: seq<Id>, showId: Id, fed: Federation,
                       draws: BookingDraws, roster: set<Id>)
  {
    && (forall c :: c in created ==> c in ms)
    && (forall i :: 0 <= i < |created| ==>
          var m := ms[created[i]];
          && m.showId == showId && m.order == i + 1 && m.stipulation == "Standard" && !m.isTitleMatch
          && m.result == None && m.recap == ""
          && |m.teams| == 2 && m.participants == m.teams[0] + m.teams[1]
          && |m.teams[0]| == |m.teams[1]| == PickRecipe(fed, draws.slots(i).recipe)
          && NoDup(m.participants))
    && (forall i, j :: 0 <= i < j < |created| ==>
          Disjoint(ms[created[i]].participants, ms[created[j]].participants))
    && (forall i, v :: 0 <= i < |created| && v in ms[created[i]].participants ==> v in roster)
  }

  lemma {:induction false} StoredCardFacts(ms: map<Id, Match>, created: seq<Id>, card: seq<Slot>, showId: Id,
                                           pool: seq<Entry>, fed: Federation, draws: BookingDraws, roster: set<Id>)
    requires |created| == |card| && CardOk(card, pool, fed, draws)
    requires forall i :: 0 <= i < |card| ==> created[i] in ms && ms[created[i]] == CardMatch(showId, i, card[i])
    requires forall i, v :: 0 <= i < |card| && v in card[i].a + card[i].b ==> v in roster
    ensures CardStored(ms, created, showId, fed, draws, roster)
  {
  }

  lemma {:induction false} CardKeepsOthers(before: map<Id, Match>, after: map<Id, Match>, created: seq<Id>,
                                           showId: Id, fed: Federation, draws: BookingDraws, roster: set<Id>)
    requires forall m :: m in after <==> m in before || m in created
    requires forall m :: m in before ==> after[m] == before[m]
    requires CardStored(after, created, showId, fed, draws, roster)
    ensures OtherShowsKept(before, after, showId)
  {
  }

  /** The records `ensure_card` stores for the card, slot by slot. */
  function CardRecords(showId: Id, card: seq<Slot>): (r: seq<Match>)
    ensures |r| == |card|
    ensures forall i :: 0 <= i < |card| ==> r[i] == CardMatch(showId, i, card[i])
  {
    seq(|card|, i requires 0 <= i < |card| => CardMatch(showId, i, card[i]))
  }

  /** All of `team` are workers of gender `g`. */
  predicate WorkersOfGender(team: seq<Id>, workers: map<Id, Worker>, g: Gender) {
    forall v :: v in team ==> v in workers && workers[v].gender == g
  }

  /** Ids booked from the shuffled pool come from the roster. */
  lemma {:induction false} FromRoster(shuffled: seq<Entry>, pool: seq<Entry>, rosterIds: seq<Id>,
                                      workers: map<Id, Worker>, v: Id)
    requires forall x :: x in rosterIds ==> x in workers
    requires pool == EntriesOf(rosterIds, workers)
    requires multiset(shuffled) == multiset(pool)
    requires v in Ids(shuffled)
    ensures v in rosterIds
  {
    var e := IdOwner(shuffled, v);
    assert e in multiset(pool);
    var q :| 0 <= q < |pool| && pool[q] == e;
  }

  /** A booked slot makes a match the store accepts. */
  lemma {:induction false} BookedMatchFits(shows: map<Id, Show>, workers: map<Id, Worker>, showId: Id,
                                           card: seq<Slot>, pool: seq<Entry>, fed: Federation,
                                           draws: BookingDraws, i: nat)
    requires showId in shows && i < |card| && CardOk(card, pool, fed, draws)
    requires forall v :: v in card[i].a + card[i].b ==> v in workers
    ensures MatchFits(CardMatch(showId, i, card[i]), shows, workers)
  {
    var s := card[i];
    PickRecipeGated(fed, draws.slots(i).recipe);
    var ps := s.a + s.b;
    assert ps[0] == s.a[0] && ps[|s.a|] == s.b[0];
    assert ps[0] != ps[|s.a|];
    var m := CardMatch(showId, i, s);
    forall t, v | t in m.teams && v in t ensures v in workers {
      assert t == s.a || t == s.b;
    }
  }

  /** A single-gender team over the shuffled pool is single-gender over
      the workers. */
  lemma {:induction false} TeamGender(team: seq<Id>, shuffled: seq<Entry>, pool: seq<Entry>,
                                      rosterIds: seq<Id>, workers: map<Id, Worker>)
    requires forall x :: x in rosterIds ==> x in workers
    requires pool == EntriesOf(rosterIds, workers)
    requires multiset(shuffled) == multiset(pool)
    requires SingleGender(team, shuffled)
    ensures exists g :: WorkersOfGender(team, workers, g)
  {
    var g :| IdsOfGender(team, shuffled, g);
    forall v | v in team ensures v in workers && workers[v].gender == g {
      assert Entry(v, g) in shuffled;
      assert Entry(v, g) in multiset(shuffled);
      assert Entry(v, g) in pool;
      var q :| 0 <= q < |pool| && pool[q] == Entry(v, g);
      assert pool[q] == Entry(rosterIds[q], workers[rosterIds[q]].gender);
    }
    assert WorkersOfGender(team, workers, g);
  }

  lemma {:induction false} StoredGenders(ms: map<Id, Match>, created: seq<Id>, card: seq<Slot>, showId: Id,
                                         shuffled: seq<Entry>, pool: seq<Entry>, rosterIds: seq<Id>,
                                         workers: map<Id, Worker>, fed: Federation, draws: BookingDraws)
    requires |created| == |card| && CardOk(card, shuffled, fed, draws) && !IntergenderAllowed(fed)
    requires forall i :: 0 <= i < |card| ==> created[i] in ms && ms[created[i]] == CardMatch(showId, i, card[i])
    requires forall x :: x in rosterIds ==> x in workers
    requires pool == EntriesOf(rosterIds, workers)
    requires multiset(shuffled) == multiset(pool)
    ensures forall i :: 0 <= i < |created| ==> SingleGenderTeams(ms[created[i]].teams, workers)
  {
    forall i | 0 <= i < |created| ensures SingleGenderTeams(ms[created[i]].teams, workers) {
      var teams := [card[i].a, card[i].b];
      assert ms[created[i]].teams == teams;
      assert SingleGender(card[i].a, shuffled) && SingleGender(card[i].b, shuffled);
      TeamGender(card[i].a, shuffled, pool, rosterIds, workers);
      TeamGender(card[i].b, shuffled, pool, rosterIds, workers);
      var ga :| WorkersOfGender(card[i].a, workers, ga);
      var gb :| WorkersOfGender(card[i].b, workers, gb);
      assert teams[0] == card[i].a && teams[1] == card[i].b;
      assert WorkersOfGender(teams[0], workers, ga) && WorkersOfGender(teams[1], workers, gb);
      assert SingleGenderTeams(teams, workers);
    }
  }

  /** Every team of `teams` is single-gender. */
  predicate SingleGenderTeams(teams: seq<seq<Id>>, workers: map<Id, Worker>) {
    forall t :: 0 <= t < |teams| ==> exists g :: WorkersOfGender(teams[t], workers, g)
  }
}
