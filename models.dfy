/** Entities of the wrestling universe: styles, genders, federations, workers,
    employment records, shows, matches and ticker events. */
module Models {

  /** Every entity is keyed by an id; ids are abstract fresh values. */
  type Id = nat

  datatype Option<T> = None | Some(value: T) {
    function GetOr(default: T): T {
      match this
      case Some(v) => v
      case None => default
    }
  }

  /** A computation that either yields a value or stops with a fault the
      original program would raise (an IndexError on a malformed match, a
      validation error on a bad snapshot). */
  datatype Result<T> = Ok(value: T) | Err(error: string)

  /** A fighting discipline. The five named ones are the table keys of the
      style-fit table; any other style string that reaches the store (through
      an import, say) is `Unlisted`. */
  datatype Style = SportsEnt | Hardcore | Mma | Lucha | Shoot | Unlisted(name: string)

  datatype Gender = Female | Male | NonBinary

  datatype Status = Upcoming | Completed | Postponed

  /** The three rule flags are optional: a federation record may lack the key. */
  datatype Federation = Federation(
    name: string, style: Style, popularity: int, safety: int, liquidity: int, about: string,
    allowIntergender: Option<bool>, allowTag: Option<bool>, allowTrios: Option<bool>)

  datatype Worker = Worker(
    ringName: string, style: Style, alignment: string,
    skill: int, charisma: int, prestige: int, risk: int, bio: string, gender: Gender)

  /** `endWeek == None` is an open-ended contract. */
  datatype Employment = Employment(
    workerId: Id, fedId: Id, startWeek: int, endWeek: Option<int>, masked: bool)

  datatype Show = Show(fedId: Id, name: string, week: int, status: Status, weirdness: int)

  datatype MatchResult =
    | Canceled(reason: string)
    | Decided(winners: seq<Id>, losers: seq<Id>, finish: string, timeS: int)

  /** `teams == []` stands for a match record without team data (the
      single-performer layout of the older engine). */
  datatype Match = Match(
    showId: Id, order: int, stipulation: string, isTitleMatch: bool,
    participants: seq<Id>, teams: seq<seq<Id>>, result: Option<MatchResult>, recap: string)

  datatype EventKind =
    | UniverseInit | UniverseImport | FedCreated | WorkerCreated | Employed
    | MatchCanceled | MatchResultPosted | BookingUpdate | ShowCompleted
    | ScheduleNote | ShowPostponed | ScheduleRollover

  /** A ticker entry, stamped with the week current when it was emitted. */
  datatype Event = Event(kind: EventKind, headline: string, severity: nat, week: int)

  /** An event before it is stamped: what an operation asks the ticker to record. */
  datatype Note = Note(kind: EventKind, headline: string, severity: nat)
}
