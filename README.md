# Federation Wars: the booking and match engine, in Dafny

Federation Wars simulates a universe of wrestling federations. Each
federation employs workers (performers), runs weekly shows, and books a
card of matches for every show. Matches are resolved by star scores, with
a chance of injury. Every step is announced on a ticker of events, newest
first. This project models the booking and match-resolution core of that
program and proves what it promises.

The modules follow the program's files:

- **Models**: the entities (styles, genders, statuses, federations,
  workers, employment records, shows, matches, events).
- **Store** (`fw/db.py`): the universe as a class `Universe` whose fields
  the operations update in place. It covers `clamp`, the roster query
  `fed_employed_workers`, `create_fed` with its rule defaults,
  `employ_worker`, `add_ticker` and the key check of
  `import_universe_json`. It also holds `StoreAll`: the insertion of a
  list of match records under fresh ids.
- **Ids** (`fw/util/ids.py`): `slugify`.
- **Booking** (`fw/sim/booking.py`): the style-fit table, `star_score`, and
  `ensure_card` with `pick_recipe`, `can_form_team` and `pop_ids`.
- **Engine** (`fw/sim/engine.py`): `run_match` (team scoring and the
  teamless fallback), `run_card` and `run_all_cards_this_week`.
- **Scheduler** (`fw/logic/universe.py`): `schedule_weekly_if_missing` and
  `skip_time`.
- **Legacy** (`app.py`): the older single-file simulator. Three things
  differ from the package:
  - booking pairs workers 1v1 by popping two ids at a time;
  - every match is decided by the single-performer rule;
  - running a card completes the show even when the card is empty.

  Its `fed_employed_workers`, `STYLE_FIT`, `style_fit`, `star_score`,
  `schedule_weekly_if_missing` and `skip_time` are the same code as the
  package's. They are modelled once, in Store, Booking and Scheduler, and
  the table below cites both copies.

How the model stands in for things the program does not show:

- **Random draws are inputs.**
  - A draw from a fixed range (`randint`, `uniform`, `random()`) is a
    parameter. Its range is a hypothesis of the lemmas that need it.
  - A choice over a list built at run time (`random.choice`,
    `random.sample`, `random.shuffle`) reads a tape `nat -> nat` and
    takes it modulo the current length. So every choice the source can
    make is one the model can make.
- **Ids are a counter.** New ids are handed out by `nextId`. Ascending
  ids stand for the insertion order in which Python dicts iterate. The
  counter also rules out id collisions. The source's ids are the clock in
  milliseconds plus `randint(100, 999)`. Two ids made in the same
  millisecond, such as the matches one booking loop inserts, are equal
  with chance 1/900. The dict store then silently overwrites the first
  record. The model does not capture that.
- **Lookups of unknown ids.** The source fails with a `KeyError`; the
  model has preconditions instead. `Universe.Valid()` states that every
  id the engine looks up exists and that every stored match has a shape
  the resolver accepts.
- **Malformed matches.** A match with exactly one team, or without two
  different participants, makes the resolver raise `IndexError`. The
  resolution function returns `Err` for it.

Three points where a reading of the design could differ from what the
code does; the model follows the code:

- `skip_time` postpones the upcoming shows scheduled before the week as
  it was *before* the increment (`fw/logic/universe.py:19-23`). A show
  scheduled at that week stays upcoming. It is not postponed against the
  new week.
- After an empty booking, `run_card` returns early
  (`fw/sim/engine.py:60-62`) and the show stays upcoming. The legacy
  `run_card` (`app.py:208-213`) marks the show completed anyway. Each
  module models its own file's behaviour.
- The `used` filter of `ensure_card` (`fw/sim/booking.py:28-30`,
  `app.py:150-154`) only removes ids from a show that already has
  matches, and such a show is never booked. It is modelled as having no
  effect.

## Model

| member | source | states |
|---|---|---|
| Store.Clamp | fw/db.py:34 | The result lies in [lo, hi] when lo <= hi. It is v when v is already in range, lo below the range and hi above it. When hi < lo the outer `max` wins and the result is lo. |
| Store.EffectiveWeek | fw/db.py:148 | A missing week and week 0 (both falsy) mean the current week. Any other week is used as given. |
| Store.ActiveIds | fw/db.py:146-151 | A worker id is in the result exactly when some employment record names it at federation `fid` with start_week <= week and an end_week that is missing or >= week. The result is a set, so it has no duplicates. The legacy copy at app.py:114-118 is the same code. |
| Store.NewFederation | fw/db.py:110-119 | The stored federation has the given fields. Each rule flag is present: the explicit argument when one is given, otherwise the style default. Intergender defaults true iff the style is hardcore, lucha or sports_ent; tag iff sports_ent, hardcore or lucha; trios iff lucha. |
| Store.Universe.constructor | fw/db.py:6-16 | The fresh store is at week 1 with no federations, workers, employment, shows, matches or events, and it satisfies Valid. |
| Store.Universe.NewId | fw/util/ids.py:3-4 | Each call hands out the id that is next and never handed out before. |
| Store.Universe.AddTicker | fw/db.py:19-32 | The new event goes in front, stamped with the current week. The older events follow unchanged and in their order. |
| Store.Universe.CreateFed | fw/db.py:110-122 | Exactly one federation is added, under a fresh id, holding NewFederation's record. A "Federation created" event is pushed, and Valid is kept. |
| Store.Universe.EmployWorker | fw/db.py:135-143 | Exactly one open-ended record is appended (end_week None). Its start week is the one given, or the current week. Earlier records are unchanged. A "Hired" event naming the worker and the federation is pushed. |
| Store.Universe.ImportUniverse | fw/db.py:41-46 | A document that is not a mapping, or lacks "universe" or "federations", gives the validation error and changes nothing. Otherwise every part of the state is replaced by the document's before the import event is logged. Logging looks up "ticker" first, then the universe's "current_week" (fw/db.py:22, 31). If either is missing, the call fails with that key error, the replaced state stays and no event is pushed. With both present, the event goes on top of the imported ticker. Ok holds iff the key check passes and both keys are present. |
| Store.Universe.AddMatch | fw/sim/booking.py:68-74 | The match is stored under a fresh id, nothing else in the match table changes, and Valid is kept. |
| Store.Universe.AddShow | fw/logic/universe.py:11-15 | The show is stored under a fresh id, nothing else in the show table changes, and Valid is kept. |
| Store.Universe.SetShowStatus | fw/sim/engine.py:64 | Only the status of the one show changes, and Valid is kept. |
| Store.Universe.SetPopularity | fw/sim/engine.py:77 | Only the popularity of the one federation changes, and Valid is kept. |
| Store.KeysInOrder | fw/logic/universe.py:9 | Returns each key of the map exactly once, in ascending id, which is the dict's insertion order. |
| Store.StoreAll | fw/sim/booking.py:66-75 | Record i is stored under a fresh id created[i], and the ids are distinct. The match table is the old one plus exactly these ids. No old match changes, and Valid is kept. |
| Store.NoDupCard | fw/db.py:148-150 | A list without repeats that holds exactly the members of a set has the set's size, so the roster list is as long as the roster. |
| Ids.Collapse | fw/util/ids.py:8 | The substitution leaves only [a-z0-9-], and every '-' is followed by a letter or digit. It is empty iff its input is, and a leading letter or digit is kept. |
| Ids.AlnumCollapse | fw/util/ids.py:8 | Collapsing runs keeps the letters and digits, in order. |
| Ids.AlnumStrip | fw/util/ids.py:8 | Stripping '-' from both ends keeps the letters and digits, in order. |
| Ids.StripShape | fw/util/ids.py:8 | Stripping a collapsed string leaves either nothing or a string with the slug shape that starts with a letter or digit. |
| Ids.SlugifyIsSlug | fw/util/ids.py:6-9 | Every result is non-empty and over [a-z0-9-]. It neither starts nor ends with '-' and has no two '-' in a row. |
| Ids.SlugifyKeepsAlnum | fw/util/ids.py:6-9 | When the lower-cased text has letters or digits, the result has exactly those, in the same order. When it has none, the result is "x". |
| Ids.SlugifyIdempotent | fw/util/ids.py:6-9 | Slugifying a slug changes nothing. |
| Booking.StyleFitDefault | fw/sim/booking.py:14-15 | A federation style that is not a table key, or a worker style missing from the row, gives 1.0. A table entry exists iff both styles are listed. The legacy copy at app.py:135-136 is the same code. |
| Booking.StyleFitBounds | fw/sim/booking.py:6-12 | Every multiplier lies in [0.90, 1.15]. A listed style's own entry is 1.15, and no entry of its row is larger. The legacy copy at app.py:126-133 is the same code. |
| Booking.StarScore | fw/sim/booking.py:17-19 | With a form swing in [-10, 10], the score lies between base·0.90 - 10 and base·1.15 + 10. With attributes in [0, 100] it lies in [-10, 125]. The legacy copy at app.py:138-140 is the same code. |
| Booking.RecipeChoicesContents | fw/sim/booking.py:35-37 | The choice list holds five 1s. Then come three 2s exactly when allow_tag is set, then two 3s exactly when allow_trios is set; each flag is false when its key is missing. |
| Booking.PickRecipeGated | fw/sim/booking.py:33-38 | The size is 1, 2 or 3, and an mma federation always gets 1. Size 2 needs allow_tag and size 3 needs allow_trios, both outside mma. |
| Booking.PickRecipeReachable | fw/sim/booking.py:35-38 | Outside mma, every size the rules allow is chosen by some draw. |
| Booking.OfGender | fw/sim/booking.py:43-44 | A `by_g` bucket holds exactly the pool members of that gender, and keeps ids unique. |
| Booking.Without | fw/sim/booking.py:51 | The filtered pool holds exactly the members whose id is not removed, and keeps ids unique. |
| Booking.PopIds | fw/sim/booking.py:49-51 | Returns the ids of the picks, and the pool holding exactly the members whose id is not among them. |
| Booking.Sample | fw/sim/booking.py:42 | `random.sample` returns k members of the population, at distinct positions, with unique ids. |
| Booking.GroupByGender | fw/sim/booking.py:43-44 | Each gender that occurs is a key whose bucket is the pool's members of that gender, in order. An absent gender has no members. The key list has no repeats. |
| Booking.Eligible | fw/sim/booking.py:45 | The genders listed are exactly the bucket keys with at least k members. |
| Booking.CanFormTeam | fw/sim/booking.py:40-47 | None iff k <= 0, or the pool (or, without intergender, every gender's bucket) has fewer than k members. Otherwise the team is k distinct pool members, all of one gender when intergender is off. |
| Booking.RemoveTeam | fw/sim/booking.py:51 | Removing a drawn team shrinks the pool by the team's size, and each gender's bucket by the team's members of that gender. |
| Booking.SecondTeamFormable | fw/sim/booking.py:57-60 | If two teams of size k fit in the pool, then whichever legal team A is drawn, team B can still be formed from what is left. |
| Booking.BookSlot | fw/sim/booking.py:56-64 | The two teams of a completed slot repeat no id and share none with earlier slots. They come from the pool, and are single-gender when intergender is off. |
| Booking.ExtendCard | fw/sim/booking.py:59-64 | Appending such a slot keeps the card invariant. The pool left over is the pool without every booked id. |
| Booking.SlotAppended | fw/sim/booking.py:59-64 | The card-invariant half of ExtendCard, checked slot by slot. |
| Booking.BuildCard | fw/sim/booking.py:53-64 | Books at most 4 slots. Each slot has two teams of the drawn recipe size that repeat no id. No id is in two slots. Every id comes from the pool. Teams are single-gender without intergender. Booking stops before 4 slots only when the next drawn size cannot field two teams from what is left, because a team B failure returns team A's picks. |
| Booking.Shuffle | fw/sim/booking.py:54 | `random.shuffle` yields a permutation of the pool. |
| Booking.UniqueIdsPermutation | fw/sim/booking.py:54 | A permutation of a pool with distinct ids has distinct ids. |
| Booking.ListIds | fw/sim/booking.py:24 | The roster set becomes a list that holds each member exactly once. |
| Booking.CardRecords | fw/sim/booking.py:66-75 | Record i is the stored form of slot i. |
| Booking.CardFits | fw/sim/booking.py:24-27 | Every booked id is on the show's roster, and every record is a match the store accepts. |
| Booking.CardBooked | fw/sim/booking.py:66-75 | After storing, the card is as CardStored describes, other shows' matches are untouched, and teams are single-gender where the rules ask for it. |
| Booking.TeamGender | fw/sim/booking.py:43-47 | A team from one gender bucket is one gender in the worker table. |
| Booking.StoredGenders | fw/sim/booking.py:43-47 | Without intergender, every stored match's teams are single-gender. |
| Booking.EnsureCard | fw/sim/booking.py:21-75 | A show that already has a match gets nothing, and the store is unchanged, so booking is idempotent. Otherwise the returned `shuffled` holds each rostered worker once, with its gender, and the card built from it is stored: match i under `created[i]`, with order i + 1, the standard stipulation, no title, no result, teams [A, B] and participants A then B. The card satisfies the card invariant of BuildCard: at most 4 slots, teams of the drawn size, no worker twice, everyone from the roster, single-gender teams without intergender. It stops short of 4 only when the next drawn size cannot field two teams from the unbooked rest. Other shows' matches are untouched. |
| Booking.BookCard | fw/sim/booking.py:24-75 | The booking path for a show without matches: the same promises as EnsureCard's second case. |
| Booking.PoolEntries | fw/sim/booking.py:24-27 | The shuffled pool holds exactly the roster's workers, each once, each with its worker's gender. |
| Booking.OneGone | fw/sim/booking.py:51 | Filtering one id out of a pool with distinct ids removes at most one entry. |
| Booking.WithoutAtLeast | fw/sim/booking.py:51 | Filtering n ids out of a pool with distinct ids leaves at least its size minus n. |
| Booking.BookedLength | fw/sim/booking.py:59-64 | A card of n slots whose teams all have size k books 2kn ids. |
| Booking.FullCardFromEight | fw/sim/booking.py:53-64 | An mma federation with intergender allowed books exactly 4 matches from a pool of 8 or more. So a card from EnsureCard for such a roster has 4 slots. |
| Engine.StarSumBounds | fw/sim/engine.py:39 | The sum of n rated members' star scores lies in [-10n, 125n]. |
| Engine.MeanStarBounds | fw/sim/engine.py:39 | The mean star score over max(1, len) of a team of rated workers lies in [-10, 125]. An empty team's star sum is 0. |
| Engine.TeamScoreBounds | fw/sim/engine.py:36-41 | With attributes in [0, 100] and draws in range, a team's score (the mean over max(1, len) plus the perturbation in [-3, 3]) lies in [-13, 128]. An empty team scores the perturbation alone. |
| Engine.ScoreTeams | fw/sim/engine.py:36-41 | The scoring loop produces every team's score, in team order. |
| Engine.WinIndex | fw/sim/engine.py:43 | The winner index is 0 exactly when scores[0] >= scores[1], so ties go to the first team. |
| Engine.Leader | fw/sim/engine.py:24-25 | A stable descending sort puts first a position scoring highest among the entries, skipping the winner's id. It is the earliest such position on ties. None iff every entry is skipped. |
| Engine.CancelRule | fw/sim/engine.py:13-18 | A match is canceled exactly when the roll is below 0.05 and the style is mma or hardcore. It then records "Injury in camp", the fixed recap and a severity-3 note, and no winners or losers. |
| Engine.TeamDecision | fw/sim/engine.py:43-53 | Winners and losers are the two teams, in the roles the scores give them; together they are the match's first two teams. The method is one of the four, and the duration lies in [240, 1500]. |
| Engine.SoloDecision | fw/sim/engine.py:20-27 | Without team data, the winner is a top-scoring participant and the loser a different participant scoring highest among the rest. The method is one of the four, and the duration lies in [180, 1200]. |
| Engine.ResolutionDefined | fw/sim/engine.py:20-44 | The resolver raises exactly for a non-canceled match with one team, or without team data and with no two different participants. Every match the store accepts resolves. |
| Engine.Decide | fw/sim/engine.py:36-47 | The loop over the teams computes the outcome the resolution function gives. |
| Engine.RunMatch | fw/sim/engine.py:5-53 | The match gets the result and recap the resolver decides, one stamped note is pushed, nothing else changes, and Valid is kept. |
| Engine.ResolvedResolvesAlike | fw/sim/engine.py:47-50 | Writing the outcome into a match does not change how it resolves. |
| Engine.CardOrder | fw/sim/engine.py:59 | Lists every match of the show exactly once, in card order (by order, then by id as the stable sort keeps them). |
| Engine.RunInOrder | fw/sim/engine.py:63 | Match i of the card holds the resolver's outcome for draw i. No other match changes. The notes are pushed in order. |
| Engine.RunNext | fw/sim/engine.py:63 | One pass of the loop extends the resolved prefix and the pushed notes by one match. |
| Engine.PlayCard | fw/sim/engine.py:63 | After the loop, every match of the card holds the resolver's outcome, card order is kept, and other shows' matches are untouched. |
| Engine.RunBookedCard | fw/sim/engine.py:58-65 | The matches run are exactly the show's matches before the run, each once. An empty card leaves the shows unchanged and pushes the booking note. Otherwise every match is resolved in card order, the show alone becomes completed, and the completion event goes on top of the match notes. |
| Engine.RunCard | fw/sim/engine.py:55-65 | `ensure_card`, then the behaviour above. A show that had matches runs exactly those and books nothing. A show without matches runs exactly the `created` matches EnsureCard books, as many as the card's slots. The card obeys EnsureCard's invariant and its stopping rule. Federations, workers, employment and the week are unchanged. |
| Engine.NewCardRuns | fw/sim/engine.py:57-59 | On a show that had no matches, the matches listed after booking are exactly the booked ones, and there are as many. |
| Engine.PushedExtends | fw/sim/engine.py:61-65 | A ticker whose tail pushes the match notes on the old ticker (plus a booking note) extends the old ticker. |
| Engine.Nudge | fw/sim/engine.py:76-77 | The popularity stays in [0, 100] for every start and draw. For a draw in [-2, 3] it moves by at most the draw, in its direction. It moves by exactly the draw when that stays in range. |
| Engine.ShowsDue | fw/sim/engine.py:70 | Lists exactly the shows of the current week that are still upcoming, in insertion order. |
| Engine.RunDueShow | fw/sim/engine.py:74-77 | The show's card is run as Engine.RunCard states it (`CardRun`), for the roster and federation on entry. A show that had matches runs exactly those and books nothing. Otherwise it runs exactly the `created` matches, one per slot of a card that obeys EnsureCard's invariant and stopping rule. Each match run stores the resolver's outcome for its draws (`ResultsPosted`). Only that show's status may change. Its federation's popularity becomes the nudged value and nothing else about federations changes. |
| Engine.CardRunIgnoresPopularity | fw/sim/booking.py:34-56 | Booking reads the federation's style and its tag, trios and intergender flags, never its popularity. So a card run for a federation with a nudged popularity is a card run for the un-nudged one. |
| Engine.ShowRanKept | fw/sim/engine.py:73-74 | Running a later show keeps what is known about a show that already ran. |
| Engine.ProgressStep | fw/sim/engine.py:73-77 | One pass of the week loop keeps the loop invariant: the shows run so far, the untouched rest, and federations moving only in popularity, within [0, 100]. |
| Engine.RunNextShow | fw/sim/engine.py:73-77 | One pass of the week loop, as a method carrying that invariant. |
| Engine.WeekRanAtEnd | fw/sim/engine.py:73-77 | After the last pass, the week's summary holds. |
| Engine.RunAllCardsThisWeek | fw/sim/engine.py:67-77 | Runs exactly the current week's upcoming shows, in insertion order, each with its card stored in card order and completed exactly when that card is non-empty. Shows outside today keep everything, and today's shows change only status. Other shows' matches are untouched. Only federations with a show today change popularity, which ends in [0, 100]. With no show due, the schedule note is the only change. |
| Scheduler.WeeklyShow | fw/logic/universe.py:13-15 | The new show's weirdness lies in [0, 100], and in [10, 35] for a draw in [10, 25] and a popularity in [0, 100]. |
| Scheduler.FedWeeks | fw/logic/universe.py:6-8 | `by_fed` maps a federation to a week exactly when it has a show at that week. |
| Scheduler.CountUnchanged | fw/logic/universe.py:12 | Shows added for other federations leave a federation's show count alone, so n counts the shows before the pass. |
| Scheduler.SchedulingSkip | fw/logic/universe.py:10 | A federation that already has a show at the week gets none. |
| Scheduler.SchedulingAdd | fw/logic/universe.py:10-15 | A federation without one gets exactly its weekly show, upcoming at the week and named "{name} Weekly #n" with n one more than its show count, and the loop invariant is kept. |
| Scheduler.ScheduleWeeklyIfMissing | fw/logic/universe.py:4-15 | Afterwards every federation has a show at the week. Existing shows are unchanged. The new shows are fresh and upcoming, one per federation that had none, each named "{name} Weekly #n" with n = 1 + its show count, with weirdness in [0, 100]. The legacy copy at app.py:228-244 is the same code. |
| Scheduler.AfterPostpone | fw/logic/universe.py:21-23 | A show ends postponed iff it was postponed, or upcoming and scheduled before the week. It ends upcoming iff it was upcoming and not overdue. It ends completed iff it was completed. All other fields stay. |
| Scheduler.PostponeHit | fw/logic/universe.py:22-24 | An overdue show becomes postponed and joins the list of postponed shows. |
| Scheduler.PostponeMiss | fw/logic/universe.py:22 | A show that is not overdue keeps its status, and the loop invariant is kept. |
| Scheduler.PostponeNext | fw/logic/universe.py:21-24 | One pass of the postponing loop keeps its invariant and pushes one event per postponed show. |
| Scheduler.PostponeOverdue | fw/logic/universe.py:19-24 | Exactly the overdue shows are postponed, in insertion order, with one event each. No other show changes. |
| Scheduler.AdvanceWeek | fw/logic/universe.py:26-29 | The week goes up by exactly 1. Every federation then has a show at the new week, existing shows are unchanged, and the rollover event is pushed. |
| Scheduler.SkipTime | fw/logic/universe.py:17-29 | The week goes up by exactly 1. The shows postponed are exactly those upcoming and scheduled before the old week, and every other status is unchanged. Every federation has a show at the new week. The ticker holds one event per postponed show under the rollover event. Federations, workers, employment and matches are unchanged. The legacy copy at app.py:246-260 is the same code. |
| Text.NatToString | fw/logic/universe.py:13 | A week or a show count renders as a non-empty string of decimal digits. It starts with '0' only for 0. |
| Text.NatToStringValue | fw/logic/universe.py:13 | Reading the digits back gives the number. |
| Text.IntToString | fw/logic/universe.py:29 | A week renders with a minus sign exactly when it is negative, followed by the digits that spell its magnitude. |
| Text.Join | fw/sim/engine.py:48-49 | No names give "". Otherwise the result is as long as the names plus one separator between each neighbouring pair, and starts with the first name followed by the separator when there is a second. |
| Legacy.PairCount | app.py:159 | The popping loop takes at most 4 pairs and never more ids than the pool holds. It stops short of 4 only when fewer than two ids are left. |
| Legacy.PopPairs | app.py:158-162 | Pair k is the last id left after k pairs, then the one before it, and there are PairCount(|pool|) pairs. |
| Legacy.PairRecords | app.py:163-171 | Record i holds pair i: order i + 1, the standard stipulation, no title, the two ids as participants, no team data and no result. |
| Legacy.PairsApart | app.py:157-171 | Each booked match has two different participants from the pool and orders 1..n. No id is in two matches. |
| Legacy.NoDupPermutation | app.py:157 | A shuffle of a list without repeats has none. |
| Legacy.PairsFit | app.py:164-170 | Every popped pair makes a match the store accepts. |
| Legacy.PairsBooked | app.py:163-171 | Storing the records leaves the pairs in the store in order and touches no other show. |
| Legacy.EnsureCard | app.py:142-171 | A show that already has a match gets nothing, and the store is unchanged. Otherwise the shuffled roster (each employed id once) is booked into PairCount matches of two different workers each, with orders 1..n, none in two matches. Other shows' matches are untouched. |
| Legacy.Decision | app.py:179-196 | The legacy rule decides by the teamless resolver whatever team data the record carries, so it agrees with it on teamless matches. |
| Legacy.DecisionRules | app.py:181-196 | Cancellation exactly for mma and hardcore below 0.05. An IndexError exactly when the match is not canceled and no two participants differ. Otherwise the winner is a top scorer and the loser a different participant scoring highest among the rest. The method is one of four, and the duration lies in [180, 1200]. |
| Legacy.DecidedAlike | app.py:196-198 | Writing the outcome into a match does not change its decision. |
| Legacy.RunMatch | app.py:173-200 | The match gets the decided result and recap, one note is pushed, and nothing else changes. |
| Legacy.RunNext | app.py:210-211 | One pass of the match loop extends the decided prefix by one match. |
| Legacy.RunInOrder | app.py:210-211 | Match i of the card holds its decision for draw i. No other match changes. The notes are pushed in order. |
| Legacy.PlayCard | app.py:210-211 | After the loop, every match of the card holds its decision, and other shows are untouched. |
| Legacy.CloseCard | app.py:210-213 | The card is run, the show becomes completed, and the completion event goes on top. |
| Legacy.RunBooked | app.py:204-213 | The matches run are exactly the show's matches before the run, each once. Every match is decided in card order and the show becomes completed. The ticker extends the old one. An empty card pushes the booking note first, and the show is still completed. |
| Legacy.RunCard | app.py:202-213 | Booking, then the show becomes completed whether or not its card is empty. A show that had matches runs exactly those and books nothing. A show without matches runs exactly the `created` matches, PairCount of its roster's size. Every match is decided in card order, and other shows are untouched. The ticker is the old one, plus the booking note for an empty card, plus the match notes, under the completion event. |
| Legacy.NewPairsRun | app.py:202-207 | On a show without matches, the matches listed after booking are exactly the popped pairs, PairCount of the roster's size. |
| Legacy.CompletesStep | app.py:212 | Completing one more of today's shows keeps the set of completed shows in step. |
| Legacy.ProgressStep | app.py:221-226 | One pass of the week loop keeps its invariant. |
| Legacy.RunDueShow | app.py:221-226 | The show's card is run as Legacy.RunCard states it (`PairsRun`). A show that had matches runs exactly those and books nothing. Otherwise it runs exactly the `created` matches, PairCount of the roster's size on entry. The matches run in card order, and each holds its decision for its draws (`Decided`). The show is completed and other shows' matches are untouched. Its federation's popularity becomes the clamped nudge, and nothing else about federations changes. |
| Legacy.WeekRanAtEnd | app.py:221-226 | After the last pass, the week's summary holds. |
| Legacy.RunAllCardsThisWeek | app.py:215-226 | Exactly the current week's upcoming shows are run and become completed, and no other show changes. Other shows' matches are untouched. Only federations with a show today change popularity, which ends in [0, 100]. With no show due, the schedule note is the only change. |

## Left out

- The Streamlit pages and the UI part of `app.py` are presentation only.
- `new_id` reads wall-clock time and the random generator. Ids are a counter instead, so the model has no id collisions. In the source, two ids of the same millisecond collide with chance 1/900 and the later insert overwrites the earlier record (fw/util/ids.py:3-4, fw/sim/booking.py:66-75, app.py:164-170).
- Event ids, timestamps, blurbs, confidence and entities are not modelled. An event keeps its kind, headline, severity and week.
- JSON encoding and decoding are not modelled. `ImportUniverse` takes a decoded document and checks its keys.
- `random.seed`, `seed_demo`, `create_worker`, `shows_for_week` and `export_universe_json` are outside the modelled core.
- Probabilities (the 5/3/2 recipe weights, the 0.05 injury rate, uniform sampling) are not verified. Each draw is an input, and the choice lists and range guards are verified instead.
- Scores are mathematical reals, not IEEE floats.
- Lower-casing in `slugify` is ASCII only, not Unicode `str.lower`.
- The shared session store is a `Universe` object passed to every operation. The source has no concurrency.
- `fw.models` is not part of this model. Styles are five named values plus `Unlisted`, and genders are three values.
- Booking.StarScore: states bounds only. The formula itself is the function's definition.
- Store.Universe.ImportUniverse: the imported state is not checked for referential integrity, so the method does not promise Valid afterwards.
- Store.Universe.ImportUniverse: a missing "ticker" or "current_week" key is modelled by the key sets of the document. The decoded content still carries a ticker and a week, which stand for whatever the store holds under the missing key. A "universe" entry that is not a mapping has no keys here: the source raises a TypeError there, and the model reports the missing "current_week".
- Engine.RunAllCardsThisWeek: per show, it states the outcomes stored in each match, not that each is the resolver's decision, nor what was booked. Engine.RunDueShow states both for one show.
- Engine.RunDueShow: the ticker is only said to grow at its front. Engine.RunCard states its exact contents. The nudge is written before the card runs. This gives the same end state, because running a card neither reads nor writes a popularity (Engine.CardRunIgnoresPopularity).
- Legacy.RunAllCardsThisWeek: states statuses, popularity and which matches may change, not what was booked or the per-match outcomes. Legacy.RunDueShow states those for one show.
- Legacy.RunDueShow: the ticker is only said to grow at its front. Legacy.RunCard states its exact contents. The nudge is written before the card runs. This gives the same end state, because a legacy card run reads only a federation's style, which the nudge keeps.
