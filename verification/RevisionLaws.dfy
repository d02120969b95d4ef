/** The revision log over whole runs: what every interleaving keeps, and the unbounded history it is
    the end of. */
module RevisionLaws {
  import opened Wrappers
  import opened Strconv
  import opened RevisionLog

  /** What can happen to the log, each step atomic: an admitted request is recorded, the newest
      revision gets its phase, an orphaned revision is deleted, the boot is deleted. */
  datatype Event = Record(hash: string) | SetPhase(active: bool) | OrphanDeleted(at: nat) | BootDeleted

  function PhaseFor(active: bool): Phase {
    if active then Active else Running
  }

  function Apply(log: Log, e: Event, base: string, maxHistory: nat): Log {
    match e
    case Record(hash) => Recorded(log, base, hash, maxHistory)
    case SetPhase(active) => WithPhase(log, PhaseFor(active))
    case OrphanDeleted(at) => if at < |log| then log[..at] + log[at + 1..] else log
    case BootDeleted => []
  }

  function Run(events: seq<Event>, base: string, maxHistory: nat): Log {
    if events == [] then []
    else Apply(Run(events[..|events| - 1], base, maxHistory), Last(events), base, maxHistory)
  }

  // --------------------------------------------------------------------------
  // Every interleaving.

  predicate Ended(r: Revision) {
    r.phase == Cancelled || r.phase == Complete
  }

  /** Ids are distinct and positive, the log is bounded, and all but its newest entry have ended. */
  ghost predicate Sound(log: Log, base: string, maxHistory: nat) {
    && IsLog(log, base)
    && |log| <= maxHistory
    && forall i :: 0 <= i < |log| - 1 ==> Ended(log[i])
  }

  lemma SuffixAt<T>(s: seq<T>, n: nat, i: nat)
    requires i < |Suffix(s, n)|
    ensures |Suffix(s, n)| == if |s| > n then n else |s|
    ensures Suffix(s, n)[i] == s[|s| - |Suffix(s, n)| + i]
  {
  }

  lemma EndIsSound(log: Log, base: string, maxHistory: nat)
    requires IsLog(log, base) && forall i :: 0 <= i < |log| - 1 ==> Ended(log[i])
    ensures Sound(Suffix(log, maxHistory), base, maxHistory)
  {
  }

  /** A log with its newest entry ended and one more appended. */
  lemma GrownIsLog(log: Log, base: string, r: Revision)
    requires IsLog(log, base) && log != [] && forall i :: 0 <= i < |log| - 1 ==> Ended(log[i])
    requires WellNumbered(r, base) && GetRevisionId(r) == LastId(log) + 1
    ensures var grown := log[..|log| - 1] + [Superseded(Last(log)), r];
            IsLog(grown, base) && forall i :: 0 <= i < |grown| - 1 ==> Ended(grown[i])
  {
  }

  lemma RecordedIsSound(log: Log, base: string, hash: string, maxHistory: nat)
    requires Sound(log, base, maxHistory) && maxHistory >= 1 && LastId(log) < MAX_INT
    ensures Sound(Recorded(log, base, hash, maxHistory), base, maxHistory)
    ensures LastId(Recorded(log, base, hash, maxHistory)) <= LastId(log) + 1
  {
    OwnId(base, LastId(log) + 1, hash);
    if log != [] && Last(log).hash != hash {
      var r := NewRevision(base, LastId(log) + 1, hash);
      GrownIsLog(log, base, r);
      EndIsSound(log[..|log| - 1] + [Superseded(Last(log)), r], base, maxHistory);
    }
  }

  lemma PhaseIsSound(log: Log, base: string, phase: Phase, maxHistory: nat)
    requires Sound(log, base, maxHistory)
    ensures Sound(WithPhase(log, phase), base, maxHistory) && LastId(WithPhase(log, phase)) == LastId(log)
  {
  }

  lemma DeletionIsSound(log: Log, base: string, at: nat, maxHistory: nat)
    requires Sound(log, base, maxHistory) && at < |log|
    ensures Sound(log[..at] + log[at + 1..], base, maxHistory)
    ensures LastId(log[..at] + log[at + 1..]) <= LastId(log)
  {
  }

  /** Main result: the log is sound after every run, whatever the order of the events; ids stay below
      the number of events, so a run shorter than the largest integer never wraps. */
  lemma {:induction false} EveryRunIsSound(events: seq<Event>, base: string, maxHistory: nat)
    requires maxHistory >= 1 && |events| <= MAX_INT
    ensures Sound(Run(events, base, maxHistory), base, maxHistory)
    ensures LastId(Run(events, base, maxHistory)) <= |events|
  {
    if events != [] {
      var before, e := events[..|events| - 1], Last(events);
      EveryRunIsSound(before, base, maxHistory);
      var log := Run(before, base, maxHistory);
      match e
      case Record(hash) => RecordedIsSound(log, base, hash, maxHistory);
      case SetPhase(active) => PhaseIsSound(log, base, PhaseFor(active), maxHistory);
      case OrphanDeleted(at) => if at < |log| { DeletionIsSound(log, base, at, maxHistory); }
      case BootDeleted =>
    }
  }

  /** In every run a revision is called after its base and its number. */
  lemma RevisionsAreNamed(events: seq<Event>, base: string, maxHistory: nat, i: nat)
    requires maxHistory >= 1 && |events| <= MAX_INT && i < |Run(events, base, maxHistory)|
    ensures var r := Run(events, base, maxHistory)[i];
            r.name == base + "-" + Itoa(GetRevisionId(r))
  {
    EveryRunIsSound(events, base, maxHistory);
    assert WellNumbered(Run(events, base, maxHistory)[i], base);
  }

  /** A record that writes bounds the log whatever was there before, for instance a longer log from a
      time with a larger limit. */
  lemma RecordRestoresBound(log: Log, base: string, hash: string, maxHistory: nat)
    requires maxHistory >= 1
    requires Recorded(log, base, hash, maxHistory) != log
    ensures |Recorded(log, base, hash, maxHistory)| <= maxHistory
    ensures Last(Recorded(log, base, hash, maxHistory)) == NewRevision(base, LastId(log) + 1, hash)
  {
  }

  // --------------------------------------------------------------------------
  // When numbers are given twice.

  /** Recording `hash` adds a revision. */
  predicate Adds(log: Log, hash: string) {
    log == [] || Last(log).hash != hash
  }

  /** Ids are unique among live revisions only: the revision added after one was deleted has a new
      number exactly when the deleted one was not the newest. */
  lemma DeletedNumberIsReused(log: Log, base: string, hash: string, maxHistory: nat, at: nat)
    requires Sound(log, base, maxHistory) && maxHistory >= 1 && LastId(log) < MAX_INT && at < |log|
    requires Adds(Apply(log, OrphanDeleted(at), base, maxHistory), hash)
    ensures LastId(Recorded(Apply(log, OrphanDeleted(at), base, maxHistory), base, hash, maxHistory)) > LastId(log)
            <==> at < |log| - 1
  {
    var rest := Apply(log, OrphanDeleted(at), base, maxHistory);
    DeletionIsSound(log, base, at, maxHistory);
    AddedId(rest, base, hash, maxHistory);
    if at == |log| - 1 { assert rest == log[..at]; } else { assert Last(rest) == Last(log); }
  }

  lemma AddedId(log: Log, base: string, hash: string, maxHistory: nat)
    requires maxHistory >= 1 && 0 <= LastId(log) < MAX_INT && Adds(log, hash)
    ensures LastId(Recorded(log, base, hash, maxHistory)) == LastId(log) + 1
  {
    OwnId(base, LastId(log) + 1, hash);
  }

  /** The largest number any revision had in a run. */
  function Largest(events: seq<Event>, base: string, maxHistory: nat): int {
    if events == [] then 0
    else
      var before, now := Largest(events[..|events| - 1], base, maxHistory), LastId(Run(events, base, maxHistory));
      if now > before then now else before
  }

  /** The event adds a revision to this log. */
  predicate AddsTo(log: Log, e: Event) {
    e.Record? && Adds(log, e.hash)
  }

  /** The event takes the newest revision from this log. */
  predicate TakesNewest(log: Log, e: Event) {
    log != [] && (e.BootDeleted? || (e.OrphanDeleted? && e.at == |log| - 1))
  }

  /** Some event of the run took the newest revision there was. */
  predicate NewestTaken(events: seq<Event>, base: string, maxHistory: nat) {
    events != []
    && (NewestTaken(events[..|events| - 1], base, maxHistory)
        || TakesNewest(Run(events[..|events| - 1], base, maxHistory), Last(events)))
  }

  /** Every revision that was added had a number larger than all before. */
  predicate NumbersFresh(events: seq<Event>, base: string, maxHistory: nat) {
    events == []
    || (NumbersFresh(events[..|events| - 1], base, maxHistory)
        && (AddsTo(Run(events[..|events| - 1], base, maxHistory), Last(events)) ==>
              LastId(Run(events, base, maxHistory)) > Largest(events[..|events| - 1], base, maxHistory)))
  }

  /** No revision was added once the newest had been taken. */
  predicate NothingAddedAfterTaking(events: seq<Event>, base: string, maxHistory: nat) {
    events == []
    || (NothingAddedAfterTaking(events[..|events| - 1], base, maxHistory)
        && !(AddsTo(Run(events[..|events| - 1], base, maxHistory), Last(events))
             && NewestTaken(events[..|events| - 1], base, maxHistory)))
  }

  lemma LastIdWithout(log: Log, base: string, at: nat, maxHistory: nat)
    requires IsLog(log, base) && at < |log|
    ensures var rest := log[..at] + log[at + 1..];
            if at == |log| - 1 then LastId(rest) < LastId(log) else LastId(rest) == LastId(log)
  {
    var rest := log[..at] + log[at + 1..];
    if at == |log| - 1 { assert rest == log[..at]; } else { assert Last(rest) == Last(log); }
  }

  /** What one event does to the largest live number. */
  lemma LastIdAfter(log: Log, e: Event, base: string, maxHistory: nat)
    requires Sound(log, base, maxHistory) && maxHistory >= 1 && LastId(log) < MAX_INT
    ensures var after := LastId(Apply(log, e, base, maxHistory));
            if AddsTo(log, e) then after == LastId(log) + 1
            else if TakesNewest(log, e) then after < LastId(log)
            else after == LastId(log)
  {
    match e
    case Record(hash) => if Adds(log, hash) { AddedId(log, base, hash, maxHistory); }
    case SetPhase(active) => PhaseIsSound(log, base, PhaseFor(active), maxHistory);
    case OrphanDeleted(at) => if at < |log| { LastIdWithout(log, base, at, maxHistory); }
    case BootDeleted =>
  }

  /** As long as nothing is added after a taking, the newest number is the largest ever exactly when
      there was no taking. */
  lemma {:induction false} LargestIsLive(events: seq<Event>, base: string, maxHistory: nat)
    requires maxHistory >= 1 && |events| <= MAX_INT
    requires NothingAddedAfterTaking(events, base, maxHistory)
    ensures 0 <= LastId(Run(events, base, maxHistory)) <= Largest(events, base, maxHistory)
    ensures LastId(Run(events, base, maxHistory)) == Largest(events, base, maxHistory)
            <==> !NewestTaken(events, base, maxHistory)
  {
    if events != [] {
      var before := events[..|events| - 1];
      LargestIsLive(before, base, maxHistory);
      EveryRunIsSound(before, base, maxHistory);
      EveryRunIsSound(events, base, maxHistory);
      LastIdAfter(Run(before, base, maxHistory), Last(events), base, maxHistory);
    }
  }

  /** Main result: in a run no number is given twice exactly when no revision is added after an event
      that took the newest one. */
  lemma {:induction false} NumbersFreshExactly(events: seq<Event>, base: string, maxHistory: nat)
    requires maxHistory >= 1 && |events| <= MAX_INT
    ensures NumbersFresh(events, base, maxHistory) <==> NothingAddedAfterTaking(events, base, maxHistory)
  {
    if events != [] {
      var before := events[..|events| - 1];
      NumbersFreshExactly(before, base, maxHistory);
      if NumbersFresh(before, base, maxHistory) {
        LargestIsLive(before, base, maxHistory);
        EveryRunIsSound(before, base, maxHistory);
        LastIdAfter(Run(before, base, maxHistory), Last(events), base, maxHistory);
      }
    }
  }

  // --------------------------------------------------------------------------
  // The unbounded history.

  datatype Entry = Entry(hash: string, phase: Phase)

  /** The phase of a revision that is no longer the newest. */
  function EndedPhase(phase: Phase): Phase {
    if phase == Running then Cancelled else if phase == Active then Complete else phase
  }

  function Step(history: seq<Entry>, e: Event): seq<Entry> {
    match e
    case Record(hash) =>
      if history == [] then [Entry(hash, Running)]
      else if Last(history).hash == hash then history
      else
        history[..|history| - 1] + [Entry(Last(history).hash, EndedPhase(Last(history).phase)), Entry(hash, Running)]
    case SetPhase(active) =>
      if history == [] then [] else history[..|history| - 1] + [Last(history).(phase := PhaseFor(active))]
    case OrphanDeleted(_) => history
    case BootDeleted => history
  }

  function History(events: seq<Event>): seq<Entry> {
    if events == [] then [] else Step(History(events[..|events| - 1]), Last(events))
  }

  function NumberedEntry(e: Entry, base: string, id: int): Revision {
    NewRevision(base, id, e.hash).(phase := e.phase)
  }

  function Numbered(history: seq<Entry>, base: string): (log: Log)
    ensures |log| == |history|
    ensures forall i :: 0 <= i < |log| ==> log[i] == NumberedEntry(history[i], base, i + 1)
  {
    seq(|history|, i requires 0 <= i < |history| => NumberedEntry(history[i], base, i + 1))
  }

  predicate DeletesNothing(events: seq<Event>) {
    forall i :: 0 <= i < |events| ==> events[i].Record? || events[i].SetPhase?
  }

  lemma NumberedId(e: Entry, base: string, id: int)
    requires 1 <= id <= MAX_INT
    ensures GetRevisionId(NumberedEntry(e, base, id)) == id
  {
    ParseItoa(id);
  }

  lemma {:induction false} HistoryGrowsByOne(events: seq<Event>)
    ensures |History(events)| <= |events|
  {
    if events != [] {
      HistoryGrowsByOne(events[..|events| - 1]);
    }
  }

  /** Main result: without other deleters the stored revisions are the last `maxHistory` entries of the
      unbounded history, numbered by their position in it. */
  lemma {:induction false} LogIsEndOfHistory(events: seq<Event>, base: string, maxHistory: nat)
    requires maxHistory >= 1 && |events| <= MAX_INT && DeletesNothing(events)
    ensures Run(events, base, maxHistory) == Suffix(Numbered(History(events), base), maxHistory)
  {
    if events != [] {
      var before, e := events[..|events| - 1], Last(events);
      LogIsEndOfHistory(before, base, maxHistory);
      HistoryGrowsByOne(before);
      StepRefines(History(before), e, base, maxHistory);
    }
  }

  lemma StepRefines(history: seq<Entry>, e: Event, base: string, maxHistory: nat)
    requires maxHistory >= 1 && |history| < MAX_INT && (e.Record? || e.SetPhase?)
    ensures Apply(Suffix(Numbered(history, base), maxHistory), e, base, maxHistory)
            == Suffix(Numbered(Step(history, e), base), maxHistory)
  {
    if history != [] {
      var all := Numbered(history, base);
      NumberedId(Last(history), base, |history|);
      SuffixAt(all, maxHistory, |Suffix(all, maxHistory)| - 1);
      assert Last(Suffix(all, maxHistory)) == Last(all) == NumberedEntry(Last(history), base, |history|);
      match e
      case SetPhase(active) =>
        PhaseRefines(history, all, active, base, maxHistory);
      case Record(hash) =>
        if Last(history).hash != hash {
          RecordRefines(history, all, hash, base, maxHistory);
        }
    }
  }

  lemma PhaseRefines(history: seq<Entry>, all: Log, active: bool, base: string, maxHistory: nat)
    requires maxHistory >= 1 && history != []
    requires all == Numbered(history, base)
    ensures WithPhase(Suffix(all, maxHistory), PhaseFor(active))
            == Suffix(Numbered(Step(history, SetPhase(active)), base), maxHistory)
  {
    var kept, next := Suffix(all, maxHistory), Numbered(Step(history, SetPhase(active)), base);
    assert next == all[..|all| - 1] + [Last(all).(phase := PhaseFor(active))];
    SuffixKeepsLast(all, maxHistory, Last(all).(phase := PhaseFor(active)));
  }

  /** Replacing the last element and trimming commute. */
  lemma SuffixKeepsLast(all: Log, n: nat, last: Revision)
    requires n >= 1 && all != []
    ensures var kept := Suffix(all, n);
            kept != [] && Last(kept) == Last(all)
            && kept[..|kept| - 1] + [last] == Suffix(all[..|all| - 1] + [last], n)
  {
  }

  lemma RecordRefines(history: seq<Entry>, all: Log, hash: string, base: string, maxHistory: nat)
    requires maxHistory >= 1 && history != [] && Last(history).hash != hash
    requires all == Numbered(history, base)
    requires LastId(all) == |history| && Last(Suffix(all, maxHistory)) == Last(all)
    ensures Recorded(Suffix(all, maxHistory), base, hash, maxHistory)
            == Suffix(Numbered(Step(history, Record(hash)), base), maxHistory)
  {
    var tail := [Superseded(Last(all)), NewRevision(base, |history| + 1, hash)];
    var kept := Suffix(all, maxHistory);
    assert Recorded(kept, base, hash, maxHistory) == Suffix(kept[..|kept| - 1] + tail, maxHistory);
    NumberedStep(history, all, hash, base);
    SuffixOfSuffix(all, tail, maxHistory);
  }

  lemma NumberedStep(history: seq<Entry>, all: Log, hash: string, base: string)
    requires history != [] && Last(history).hash != hash && all == Numbered(history, base)
    ensures Numbered(Step(history, Record(hash)), base)
            == all[..|all| - 1] + [Superseded(Last(all)), NewRevision(base, |history| + 1, hash)]
  {
  }

  lemma SuffixOfSuffix<T>(s: seq<T>, tail: seq<T>, n: nat)
    requires s != [] && |tail| == 2 && n >= 1
    ensures var kept := Suffix(s, n);
            Suffix(kept[..|kept| - 1] + tail, n) == Suffix(s[..|s| - 1] + tail, n)
  {
  }

  /** The hashes of the recorded requests, in order. */
  function Trace(events: seq<Event>): seq<string> {
    if events == [] then []
    else
      var before := Trace(events[..|events| - 1]);
      if Last(events).Record? then before + [Last(events).hash] else before
  }

  /** A trace without its consecutive repeats. */
  function Destutter(trace: seq<string>): seq<string> {
    if trace == [] then []
    else
      var before, x := Destutter(trace[..|trace| - 1]), Last(trace);
      if before != [] && Last(before) == x then before else before + [x]
  }

  function Hashes(history: seq<Entry>): (h: seq<string>)
    ensures |h| == |history|
    ensures forall i :: 0 <= i < |h| ==> h[i] == history[i].hash
  {
    seq(|history|, i requires 0 <= i < |history| => history[i].hash)
  }

  /** The history holds each run of equal hashes once; phase updates do not show in it. */
  lemma {:induction false} HistoryIsDestuttered(events: seq<Event>)
    requires DeletesNothing(events)
    ensures Hashes(History(events)) == Destutter(Trace(events))
  {
    if events != [] {
      var before, e := events[..|events| - 1], Last(events);
      HistoryIsDestuttered(before);
      StepHashes(History(before), e);
      if e.Record? {
        assert Trace(events)[..|Trace(events)| - 1] == Trace(before);
      }
    }
  }

  lemma StepHashes(history: seq<Entry>, e: Event)
    requires e.Record? || e.SetPhase?
    ensures Hashes(Step(history, e))
            == if e.Record? && (history == [] || Last(history).hash != e.hash) then Hashes(history) + [e.hash]
               else Hashes(history)
  {
  }

  // --------------------------------------------------------------------------
  // How a revision ends.

  /** Only phase updates, and records of the request that is there already. */
  predicate NoOtherRequest(events: seq<Event>, hash: string) {
    forall i :: 0 <= i < |events| ==> events[i].SetPhase? || events[i] == Record(hash)
  }

  /** The last phase update was made with all pods ready. */
  ghost predicate ReadyAtLast(events: seq<Event>) {
    exists i :: 0 <= i < |events| && events[i] == SetPhase(true)
                && forall j :: i < j < |events| ==> !events[j].SetPhase?
  }

  lemma ReadyAtLastStep(events: seq<Event>)
    requires events != []
    ensures ReadyAtLast(events)
            <==> if Last(events).SetPhase? then Last(events).active else ReadyAtLast(events[..|events| - 1])
  {
    var before := events[..|events| - 1];
    if ReadyAtLast(before) {
      var i :| 0 <= i < |before| && before[i] == SetPhase(true)
               && forall j :: i < j < |before| ==> !before[j].SetPhase?;
      assert events[i] == SetPhase(true);
    }
    if ReadyAtLast(events) && !Last(events).SetPhase? {
      var i :| 0 <= i < |events| && events[i] == SetPhase(true)
               && forall j :: i < j < |events| ==> !events[j].SetPhase?;
      assert before[i] == SetPhase(true);
    }
  }

  /** A request starts a new entry. */
  predicate Opens(history: seq<Entry>, hash: string) {
    history == [] || Last(history).hash != hash
  }

  lemma {:induction false} OpenEntry(start: seq<Event>, hash: string, seen: seq<Event>)
    requires Opens(History(start), hash) && NoOtherRequest(seen, hash)
    ensures var open := History(start + [Record(hash)] + seen);
            && |open| == |History(start)| + 1
            && Last(open) == Entry(hash, if ReadyAtLast(seen) then Active else Running)
  {
    var events := start + [Record(hash)] + seen;
    if seen == [] {
      assert events[..|events| - 1] == start;
    } else {
      var before := seen[..|seen| - 1];
      assert events[..|events| - 1] == start + [Record(hash)] + before && Last(events) == Last(seen);
      OpenEntry(start, hash, before);
      ReadyAtLastStep(seen);
    }
  }

  /** What happened to earlier entries stays. */
  lemma {:induction false} PastStays(events: seq<Event>, more: seq<Event>, i: nat)
    requires i < |History(events)| - 1
    ensures i < |History(events + more)| - 1 && History(events + more)[i] == History(events)[i]
  {
    if more == [] {
      assert events + more == events;
    } else {
      assert (events + more)[..|events + more| - 1] == events + more[..|more| - 1];
      PastStays(events, more[..|more| - 1], i);
    }
  }

  /** Main result: over a whole run, the entry of a request ends Complete exactly when all pods were ready
      at the last phase update before another request superseded it, and Cancelled otherwise. */
  lemma EndsAsReported(start: seq<Event>, hash: string, seen: seq<Event>, other: string, more: seq<Event>)
    requires Opens(History(start), hash) && NoOtherRequest(seen, hash) && other != hash
    ensures var at, history := |History(start)|, History(start + [Record(hash)] + seen + [Record(other)] + more);
            && at < |history| - 1
            && history[at] == Entry(hash, if ReadyAtLast(seen) then Complete else Cancelled)
  {
    var events := start + [Record(hash)] + seen;
    OpenEntry(start, hash, seen);
    assert (events + [Record(other)])[..|events|] == events;
    PastStays(events + [Record(other)], more, |History(start)|);
  }

  /** Main result, spelled out: with k entries in the destuttered trace, exactly the last
      min(k, maxHistory) of them are stored, with the consecutive ids that end in k. */
  lemma StoredRevisions(events: seq<Event>, base: string, maxHistory: nat, i: nat)
    requires maxHistory >= 1 && |events| <= MAX_INT && DeletesNothing(events)
    ensures var log, trace := Run(events, base, maxHistory), Destutter(Trace(events));
            && |log| == (if |trace| > maxHistory then maxHistory else |trace|)
            && (i < |log| ==>
                  var position := |trace| - |log| + i;
                  GetRevisionId(log[i]) == position + 1 && log[i].hash == trace[position])
  {
    LogIsEndOfHistory(events, base, maxHistory);
    HistoryIsDestuttered(events);
    HistoryGrowsByOne(events);
    var history := History(events);
    assert |Hashes(history)| == |history|;
    if i < |Run(events, base, maxHistory)| {
      SuffixAt(Numbered(history, base), maxHistory, i);
      var position := |history| - |Run(events, base, maxHistory)| + i;
      NumberedId(history[position], base, position + 1);
    }
  }
}
