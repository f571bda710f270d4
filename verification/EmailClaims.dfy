/** Runs of the e-mail queue that interleave, stall and crash (wms/emailing.py).

    A run reads rows, claims them by a conditional update, sends and saves. The payload it sends and saves is the
    one it read before the claim, and the save is unconditional. */
module EmailClaims {
  import opened Ids
  import opened EmailQueue

  type Worker = nat

  datatype Run = Run(
    search: Search,
    sending: bool,          // the selection loop is over
    seen: map<Id, Event>,   // rows as this run read them
    held: map<Id, int>)     // claims not saved yet, with their instants

  datatype State = State(clock: int, rows: Rows, runs: map<Worker, Run>)

  datatype Step =
    | Tick(to: int)
    | Enqueue(id: Id)
    | Start(w: Worker, includeFailed: bool)
    | Read(w: Worker, ids: set<Id>)
    | Claim(w: Worker, id: Id)
    | Save(w: Worker, id: Id, sent: bool, sentAt: int, failedAt: int)
    | Stop(w: Worker)       // the run ends or crashes, wherever it is

  /** What may happen next. */
  predicate Enabled(s: State, step: Step, c: Config) {
    match step
    case Tick(to) => to >= s.clock
    case Enqueue(id) => id !in s.rows
    case Start(w, _) => w !in s.runs
    case Read(w, ids) =>
      w in s.runs && !s.runs[w].sending && forall id :: id in ids ==>
        id in s.rows && Claimable(s.rows[id], s.runs[w].search, c.timeout)
    case Claim(w, id) =>
      && w in s.runs && !s.runs[w].sending && id in s.runs[w].seen && id !in s.runs[w].held
      && !Deferred(s.runs[w].seen[id], s.runs[w].search.now)
    case Save(w, id, _, sentAt, failedAt) =>
      && w in s.runs && id in s.runs[w].held && id in s.runs[w].seen && id in s.rows
      && s.runs[w].held[id] <= sentAt <= failedAt <= s.clock
    case Stop(w) => w in s.runs
  }

  function After(s: State, step: Step, c: Config): State
    requires Enabled(s, step, c)
  {
    match step
    case Tick(to) => s.(clock := to)
    case Enqueue(id) => s.(rows := s.rows[id := Event(s.clock, Pending, None, Meta(0, None))])
    case Start(w, includeFailed) => s.(runs := s.runs[w := Run(Search(s.clock, includeFailed), false, map[], map[])])
    case Read(w, ids) =>
      var run := s.runs[w];
      s.(runs := s.runs[w := run.(seen := map id | id in run.seen.Keys + ids ::
        if id in ids then s.rows[id] else run.seen[id])])
    case Claim(w, id) =>
      var run := s.runs[w];
      if id in s.rows && Claimable(s.rows[id], run.search, c.timeout) then
        s.(rows := s.rows[id := Claimed(s.rows[id], s.clock)],
          runs := s.runs[w := run.(held := run.held[id := s.clock])])
      else s
    case Save(w, id, sent, sentAt, failedAt) =>
      var run := s.runs[w];
      s.(rows := s.rows[id := Resulting(s.rows[id], run.seen[id].meta, sent, sentAt, failedAt, c)],
         runs := s.runs[w := run.(sending := true, held := run.held - {id})])
    case Stop(w) => s.(runs := s.runs - {w})
  }

  // ---------------------------------------------------------------- what one step does

  /** A step changes one row at most, and only by a claim, a save or an arrival. */
  lemma RowsOfStep(s: State, step: Step, c: Config)
    requires Enabled(s, step, c)
    ensures var s' := After(s, step, c);
      && (forall id :: id in s.rows ==>
            id in s'.rows && (s'.rows[id] == s.rows[id] || ((step.Claim? || step.Save?) && step.id == id)))
      && (forall id :: id in s'.rows && id !in s.rows ==>
            && step == Enqueue(id) && s'.rows[id].createdAt == s.clock && s'.rows[id].status.Pending?
            && s'.rows[id].meta.attempts == 0 && s'.rows[id].meta.nextAttempt.None?)
      && s'.clock == if step.Tick? then step.to else s.clock
  {
  }

  /** A step changes the run that makes it and no other. */
  lemma RunsOfStep(s: State, step: Step, c: Config, w: Worker)
    requires Enabled(s, step, c) && (step.Tick? || step.Enqueue? || step.w != w)
    ensures w in After(s, step, c).runs <==> w in s.runs
    ensures w in s.runs ==> After(s, step, c).runs[w] == s.runs[w]
  {
  }

  /** A run starts empty-handed at the current instant, and is gone when it stops. */
  lemma StartAndStop(s: State, step: Step, c: Config)
    requires Enabled(s, step, c) && (step.Start? || step.Stop?)
    ensures step.Stop? ==> step.w !in After(s, step, c).runs
    ensures step.Start? ==>
      && step.w in After(s, step, c).runs
      && var run := After(s, step, c).runs[step.w];
         && run.search.now == s.clock && run.search.includeFailed == step.includeFailed && !run.sending
         && |run.seen| == 0 && |run.held| == 0
  {
  }

  /** A claim takes the row if that is still due, and then the run holds it; otherwise nothing happens. */
  lemma ClaimOfStep(s: State, step: Step, c: Config)
    requires Enabled(s, step, c) && step.Claim?
    ensures var s' := After(s, step, c);
      if step.id in s.rows && s.rows[step.id].status.Pending? then Took(s, s', step.w, step.id)
      else if step.id in s.rows && s.rows[step.id].status.Failed? && s.runs[step.w].search.includeFailed
      then Took(s, s', step.w, step.id)
      else if step.id in s.rows && s.rows[step.id].status.Processing? && s.rows[step.id].processedAt.Some?
        && s.runs[step.w].search.now - s.rows[step.id].processedAt.value >= c.timeout
      then Took(s, s', step.w, step.id)
      else s' == s
  {
  }

  ghost predicate Took(s: State, after: State, w: Worker, id: Id) {
    && id in s.rows && id in after.rows && w in s.runs && w in after.runs
    && after.rows[id].status.Processing? && after.rows[id].processedAt == Some(s.clock)
    && after.rows[id].meta == s.rows[id].meta && after.rows[id].createdAt == s.rows[id].createdAt
    && after.runs[w].held.Keys == s.runs[w].held.Keys + {id} && after.runs[w].held[id] == s.clock
    && after.runs[w].seen == s.runs[w].seen
  }

  /** A save writes the attempts that the run read, not those of the row, and gives the event up. */
  lemma SaveOfStep(s: State, step: Step, c: Config)
    requires Enabled(s, step, c) && step.Save?
    ensures var row, read, run := After(s, step, c).rows[step.id], s.runs[step.w].seen[step.id],
      After(s, step, c).runs[step.w];
      && run.held.Keys == s.runs[step.w].held.Keys - {step.id} && run.sending
      && row.createdAt == s.rows[step.id].createdAt && row.processedAt == Some(step.sentAt)
      && (step.sent ==> row.status.Processed? && row.meta.attempts == read.meta.attempts && row.meta.nextAttempt.None?)
      && (!step.sent ==> row.meta.attempts == read.meta.attempts + 1)
      && (!step.sent && row.meta.attempts >= c.maxAttempts ==> row.status.Failed? && row.meta.nextAttempt.None?)
      && (!step.sent && row.meta.attempts < c.maxAttempts ==>
            && row.status.Pending?
            && row.meta.nextAttempt == Some(step.failedAt + RetryDelay(row.meta.attempts, c)))
  {
  }

  /** A read copies the rows as they are and keeps earlier copies of others. */
  lemma ReadOfStep(s: State, step: Step, c: Config, id: Id)
    requires Enabled(s, step, c) && step.Read?
    ensures var before, after := s.runs[step.w], After(s, step, c).runs[step.w];
      && (id in step.ids ==> id in after.seen && after.seen[id] == s.rows[id])
      && (id !in step.ids ==> (id in after.seen <==> id in before.seen))
      && (id !in step.ids && id in before.seen ==> after.seen[id] == before.seen[id])
      && after.held == before.held && after.search == before.search
  {
  }

  /** A sequence of steps that can happen one after the other. */
  predicate Path(s: State, steps: seq<Step>, c: Config)
    decreases |steps|
  {
    steps != [] ==> Enabled(s, steps[0], c) && Path(After(s, steps[0], c), steps[1..], c)
  }

  function Final(s: State, steps: seq<Step>, c: Config): State
    requires Path(s, steps, c)
    decreases |steps|
  {
    if steps == [] then s else Final(After(s, steps[0], c), steps[1..], c)
  }

  // ---------------------------------------------------------------- exclusivity

  /** No claim is as old as the timeout: whoever still holds it has saved, or stopped, in time. */
  ghost predicate Timely(s: State, c: Config) {
    forall w, id :: Holds(s, w, id) ==> s.clock < s.runs[w].held[id] + c.timeout
  }

  ghost predicate TimelyPath(s: State, steps: seq<Step>, c: Config)
    decreases |steps|
  {
    Timely(s, c) && (steps != [] ==> Enabled(s, steps[0], c) && TimelyPath(After(s, steps[0], c), steps[1..], c))
  }

  ghost predicate Holds(s: State, w: Worker, id: Id) {
    w in s.runs && id in s.runs[w].held
  }

  /** No two runs hold one event. */
  ghost predicate Exclusive(s: State) {
    forall w, v, id :: Holds(s, w, id) && Holds(s, v, id) ==> w == v
  }

  /** The row shows its holder's claim. */
  ghost predicate ClaimsShown(s: State) {
    && (forall w, id :: Holds(s, w, id) ==>
          && id in s.rows && s.rows[id].status.Processing? && s.rows[id].processedAt == Some(s.runs[w].held[id])
          && s.runs[w].held[id] <= s.clock)
    && (forall w :: w in s.runs ==> s.runs[w].search.now <= s.clock)
  }

  /** The holder's claim is as old as the timeout, seen from the start of the other run. */
  ghost predicate LooksStale(s: State, holder: Worker, w: Worker, id: Id, c: Config)
    requires Holds(s, holder, id) && w in s.runs
  {
    s.runs[holder].held[id] <= s.runs[w].search.now - c.timeout
  }

  /** A run takes over an event that another run still holds: the claim it overtakes looks stale to it. */
  ghost predicate Overtakes(s: State, step: Step, c: Config) {
    && step.Claim? && step.w in s.runs
    && exists v :: v != step.w && Holds(s, v, step.id) && LooksStale(s, v, step.w, step.id, c)
  }

  /** A step that overtakes nobody keeps events exclusive. */
  lemma StepKeepsExclusive(s: State, step: Step, c: Config)
    requires Exclusive(s) && ClaimsShown(s) && Enabled(s, step, c) && !Overtakes(s, step, c)
    ensures Exclusive(After(s, step, c)) && ClaimsShown(After(s, step, c))
  {
    var s' := After(s, step, c);
    match step
    case Claim(w, id) =>
      assert forall v :: Holds(s, v, id) ==> s.rows[id].processedAt == Some(s.runs[v].held[id]);
      forall v, x | Holds(s', v, x) && !(v == w && x == id)
        ensures Holds(s, v, x) && s'.runs[v].held[x] == s.runs[v].held[x]
      {
      }
    case Save(w, id, _, _, _) =>
      assert Holds(s, w, id);
      assert forall v, x :: Holds(s', v, x) ==> Holds(s, v, x) && x != id;
    case _ =>
      assert forall v, x :: Holds(s', v, x) ==> Holds(s, v, x);
  }

  /** A step that overtakes somebody makes the two share an event: the condition is exact. */
  lemma OvertakingShares(s: State, step: Step, c: Config)
    requires ClaimsShown(s) && Enabled(s, step, c) && Overtakes(s, step, c)
    ensures !Exclusive(After(s, step, c))
  {
    var v :| v != step.w && Holds(s, v, step.id) && LooksStale(s, v, step.w, step.id, c);
    assert Holds(After(s, step, c), v, step.id) && Holds(After(s, step, c), step.w, step.id);
  }

  /** No two runs hold one event, at any time of the path. */
  ghost predicate ExclusivePath(s: State, steps: seq<Step>, c: Config)
    decreases |steps|
  {
    Exclusive(s) && (steps != [] ==> Enabled(s, steps[0], c) && ExclusivePath(After(s, steps[0], c), steps[1..], c))
  }

  /** Nobody is overtaken on the path. */
  ghost predicate NobodyOvertaken(s: State, steps: seq<Step>, c: Config)
    decreases |steps|
  {
    steps != [] ==>
      Enabled(s, steps[0], c) && !Overtakes(s, steps[0], c) && NobodyOvertaken(After(s, steps[0], c), steps[1..], c)
  }

  /** For every interleaving of runs: no two runs ever hold one event exactly when no run takes over an event whose
      holder is still at work on it. */
  lemma {:induction false} ExclusiveIffNobodyOvertaken(s: State, steps: seq<Step>, c: Config)
    requires Exclusive(s) && ClaimsShown(s)
    ensures ExclusivePath(s, steps, c) <==> NobodyOvertaken(s, steps, c)
    decreases |steps|
  {
    if steps != [] && Enabled(s, steps[0], c) {
      var s' := After(s, steps[0], c);
      if Overtakes(s, steps[0], c) {
        OvertakingShares(s, steps[0], c);
      } else {
        StepKeepsExclusive(s, steps[0], c);
        ExclusiveIffNobodyOvertaken(s', steps[1..], c);
      }
    }
  }

  /** Where all claims are younger than the timeout nobody can be overtaken. */
  lemma TimelyNotOvertaken(s: State, step: Step, c: Config)
    requires ClaimsShown(s) && Timely(s, c)
    ensures !Overtakes(s, step, c)
  {
  }

  /** For any interleaving of runs with one timeout, whatever each run looks for: as long as every holder saves or
      stops less than the timeout after its claim, no two runs ever hold the same event. */
  lemma {:induction false} TimelyRunsNeverShare(s: State, steps: seq<Step>, c: Config)
    requires Exclusive(s) && ClaimsShown(s) && TimelyPath(s, steps, c)
    ensures Path(s, steps, c) && Exclusive(Final(s, steps, c)) && ClaimsShown(Final(s, steps, c))
    decreases |steps|
  {
    if steps != [] {
      TimelyNotOvertaken(s, steps[0], c);
      StepKeepsExclusive(s, steps[0], c);
      TimelyRunsNeverShare(After(s, steps[0], c), steps[1..], c);
    }
  }

  const IDLE := State(0, map[], map[])

  lemma IdleIsExclusive()
    ensures Exclusive(IDLE) && ClaimsShown(IDLE)
  {
  }

  /** From the beginning of time: timely runs never share an event, and sharing has exactly one cause. */
  lemma QueueStaysExclusive(steps: seq<Step>, c: Config)
    ensures TimelyPath(IDLE, steps, c) ==> Path(IDLE, steps, c) && Exclusive(Final(IDLE, steps, c))
    ensures ExclusivePath(IDLE, steps, c) <==> NobodyOvertaken(IDLE, steps, c)
  {
    IdleIsExclusive();
    ExclusiveIffNobodyOvertaken(IDLE, steps, c);
    if TimelyPath(IDLE, steps, c) { TimelyRunsNeverShare(IDLE, steps, c); }
  }

  /** One more step at the end of a path. */
  lemma {:induction false} Extend(
    s: State, steps: seq<Step>, t: State, step: Step, c: Config) returns (longer: seq<Step>, t': State)
    requires Path(s, steps, c) && Final(s, steps, c) == t && Enabled(t, step, c)
    ensures longer == steps + [step] && t' == After(t, step, c) && Path(s, longer, c) && Final(s, longer, c) == t'
    ensures TimelyPath(s, steps, c) && Timely(t', c) ==> TimelyPath(s, longer, c)
    ensures NoneEarly(s, longer, c) <==> NoneEarly(s, steps, c) && !ClaimsEarly(t, step, c)
    decreases |steps|
  {
    longer, t' := steps + [step], After(t, step, c);
    if steps == [] {
      assert longer[1..] == [];
    } else {
      var rest, last := Extend(After(s, steps[0], c), steps[1..], t, step, c);
      assert longer[1..] == rest;
    }
  }

  const FRESH := Event(0, Pending, None, Meta(0, None))

  /** A run has read the event and, in a second form, claimed it. */
  const READ := State(0, map[7 := FRESH], map[1 := Run(Search(0, false), false, map[7 := FRESH], map[])])
  const CLAIMED := State(0, map[7 := Claimed(FRESH, 0)],
    map[1 := Run(Search(0, false), false, map[7 := FRESH], map[7 := 0])])

  lemma ReachRead(c: Config) returns (steps: seq<Step>)
    requires Usable(c)
    ensures Path(IDLE, steps, c) && Final(IDLE, steps, c) == READ && TimelyPath(IDLE, steps, c)
  {
    var s;
    steps, s := Extend(IDLE, [], IDLE, Enqueue(7), c);
    steps, s := Extend(IDLE, steps, s, Start(1, false), c);
    steps, s := Extend(IDLE, steps, s, Read(1, {7}), c);
    assert s.runs[1].seen == map[7 := FRESH];
    assert s == READ;
  }

  lemma ReachClaimed(c: Config) returns (steps: seq<Step>)
    requires Usable(c)
    ensures Path(IDLE, steps, c) && Final(IDLE, steps, c) == CLAIMED
  {
    steps := ReachRead(c);
    var s;
    steps, s := Extend(IDLE, steps, READ, Claim(1, 7), c);
    assert s == CLAIMED;
  }

  /** Timeliness is needed: a holder that sleeps through the timeout shares its event. */
  lemma LateHolderShares(c: Config) returns (steps: seq<Step>)
    requires Usable(c)
    ensures Path(IDLE, steps, c) && !Exclusive(Final(IDLE, steps, c))
  {
    steps := ReachClaimed(c);
    var s;
    steps, s := Extend(IDLE, steps, CLAIMED, Tick(c.timeout), c);
    steps, s := Extend(IDLE, steps, s, Start(2, false), c);
    steps, s := Extend(IDLE, steps, s, Read(2, {7}), c);
    steps, s := Extend(IDLE, steps, s, Claim(2, 7), c);
    assert Holds(s, 1, 7) && Holds(s, 2, 7);
  }

  predicate BeforeRetry(e: Event, now: int) {
    e.meta.nextAttempt.Some? && now < e.meta.nextAttempt.value
  }

  /** An event is claimed again before the recorded time of its retry. */
  ghost predicate ClaimedTooEarly(s: State) {
    exists w, id :: Holds(s, w, id) && id in s.rows && BeforeRetry(s.rows[id], s.clock)
  }

  /** A second run has read the event too, then claimed it, then failed to send it. */
  const READ_TWICE := READ.(runs := READ.runs[2 := Run(Search(0, false), false, map[7 := FRESH], map[])])
  const SECOND_CLAIMED := State(0, map[7 := Claimed(FRESH, 0)],
    READ.runs[2 := Run(Search(0, false), false, map[7 := FRESH], map[7 := 0])])

  function SecondFailed(c: Config): State {
    State(0, map[7 := Resulting(FRESH, FRESH.meta, false, 0, 0, c)],
      READ.runs[2 := Run(Search(0, false), true, map[7 := FRESH], map[])])
  }

  lemma ReachReadTwice(c: Config) returns (steps: seq<Step>)
    requires Usable(c)
    ensures Path(IDLE, steps, c) && Final(IDLE, steps, c) == READ_TWICE && TimelyPath(IDLE, steps, c)
  {
    steps := ReachRead(c);
    var s;
    steps, s := Extend(IDLE, steps, READ, Start(2, false), c);
    steps, s := Extend(IDLE, steps, s, Read(2, {7}), c);
    assert s.runs[2].seen == map[7 := FRESH];
    assert s == READ_TWICE;
  }

  lemma ReachSecondClaimed(c: Config) returns (steps: seq<Step>)
    requires Usable(c)
    ensures Path(IDLE, steps, c) && Final(IDLE, steps, c) == SECOND_CLAIMED && TimelyPath(IDLE, steps, c)
  {
    steps := ReachReadTwice(c);
    var s;
    steps, s := Extend(IDLE, steps, READ_TWICE, Claim(2, 7), c);
    assert s == SECOND_CLAIMED;
  }

  lemma ReachSecondFailed(c: Config) returns (steps: seq<Step>)
    requires Usable(c)
    ensures Path(IDLE, steps, c) && Final(IDLE, steps, c) == SecondFailed(c) && TimelyPath(IDLE, steps, c)
  {
    steps := ReachSecondClaimed(c);
    var s;
    steps, s := Extend(IDLE, steps, SECOND_CLAIMED, Save(2, 7, false, 0, 0), c);
    assert s.runs[2].held == map[];
    assert s == SecondFailed(c);
  }

  /** With overlapping runs a retry can be sent before its time, however fast everybody is: the second run read the
      event before the first one claimed it. */
  lemma OverlapRetriesEarly(c: Config) returns (steps: seq<Step>)
    requires Usable(c) && c.maxAttempts >= 2
    ensures Path(IDLE, steps, c) && TimelyPath(IDLE, steps, c) && ClaimedTooEarly(Final(IDLE, steps, c))
    ensures !NoneEarly(IDLE, steps, c) && !NoneOutdated(IDLE, steps, c)
  {
    steps := ReachSecondFailed(c);
    var s;
    DelaysGrow(c, 1, 1);
    assert ClaimsEarly(SecondFailed(c), Claim(1, 7), c);
    steps, s := Extend(IDLE, steps, SecondFailed(c), Claim(1, 7), c);
    assert Holds(s, 1, 7);
    QueueRetriesOnTime(steps, c);
  }

  // ---------------------------------------------------------------- retries on time

  /** The claim succeeds before the recorded time of the retry. */
  predicate ClaimsEarly(s: State, step: Step, c: Config) {
    && Enabled(s, step, c) && step.Claim? && step.id in s.rows
    && Claimable(s.rows[step.id], s.runs[step.w].search, c.timeout) && BeforeRetry(s.rows[step.id], s.clock)
  }

  /** The run decides by a copy of the row that another run's save has made outdated. */
  predicate ClaimsOutdated(s: State, step: Step, c: Config) {
    ClaimsEarly(s, step, c) && s.runs[step.w].seen[step.id].meta != s.rows[step.id].meta
  }

  /** Whatever is not pending, in the table or in a run's copy, is past the time of its retry. */
  ghost predicate DueUnlessPending(s: State) {
    && (forall id :: id in s.rows && BeforeRetry(s.rows[id], s.clock) ==> s.rows[id].status.Pending?)
    && (forall w :: w in s.runs ==> s.runs[w].search.now <= s.clock)
    && (forall w, id :: w in s.runs && id in s.runs[w].seen && BeforeRetry(s.runs[w].seen[id], s.clock) ==>
          s.runs[w].seen[id].status.Pending?)
  }

  /** Only an outdated copy lets a run claim too early. */
  lemma EarlyIsOutdated(s: State, step: Step, c: Config)
    requires DueUnlessPending(s) && ClaimsEarly(s, step, c)
    ensures ClaimsOutdated(s, step, c)
  {
    var copy := s.runs[step.w].seen[step.id];
    assert copy.meta == s.rows[step.id].meta ==> BeforeRetry(copy, s.clock) && copy.status.Pending?;
  }

  lemma StaysDue(s: State, step: Step, c: Config)
    requires DueUnlessPending(s) && Enabled(s, step, c) && !ClaimsEarly(s, step, c)
    ensures DueUnlessPending(After(s, step, c))
  {
    var s' := After(s, step, c);
    forall id | id in s'.rows && BeforeRetry(s'.rows[id], s'.clock) ensures s'.rows[id].status.Pending? {
    }
    forall w, id | w in s'.runs && id in s'.runs[w].seen && BeforeRetry(s'.runs[w].seen[id], s'.clock)
      ensures s'.runs[w].seen[id].status.Pending?
    {
      if !(step.Read? && step.w == w && id in step.ids) {
        assert w in s.runs && id in s.runs[w].seen && s'.runs[w].seen[id] == s.runs[w].seen[id];
      }
    }
  }

  /** No claim on the path comes before the recorded time of its retry. */
  predicate NoneEarly(s: State, steps: seq<Step>, c: Config)
    requires Path(s, steps, c)
    decreases |steps|
  {
    steps != [] ==> !ClaimsEarly(s, steps[0], c) && NoneEarly(After(s, steps[0], c), steps[1..], c)
  }

  /** No run on the path claims by an outdated copy. */
  predicate NoneOutdated(s: State, steps: seq<Step>, c: Config)
    requires Path(s, steps, c)
    decreases |steps|
  {
    steps != [] ==> !ClaimsOutdated(s, steps[0], c) && NoneOutdated(After(s, steps[0], c), steps[1..], c)
  }

  /** For every interleaving of runs: retries are claimed on time exactly when no run claims by an outdated copy. */
  lemma {:induction false} OnTimeIffNoneOutdated(s: State, steps: seq<Step>, c: Config)
    requires DueUnlessPending(s) && Path(s, steps, c)
    ensures NoneEarly(s, steps, c) <==> NoneOutdated(s, steps, c)
    decreases |steps|
  {
    if steps != [] {
      if ClaimsEarly(s, steps[0], c) {
        EarlyIsOutdated(s, steps[0], c);
      } else {
        StaysDue(s, steps[0], c);
        OnTimeIffNoneOutdated(After(s, steps[0], c), steps[1..], c);
      }
    }
  }

  /** A copy that agreed with its row becomes outdated by one kind of step only: another run saves its result, or the
      run saves its own, after which it claims nothing more. */
  lemma OutdatedBySave(s: State, step: Step, c: Config, w: Worker, id: Id)
    requires Enabled(s, step, c) && w in s.runs && w in After(s, step, c).runs && id in s.rows
    requires id in s.runs[w].seen && s.runs[w].seen[id].meta == s.rows[id].meta
    requires id in After(s, step, c).runs[w].seen
    requires After(s, step, c).runs[w].seen[id].meta != After(s, step, c).rows[id].meta
    ensures step.Save? && step.id == id && (step.w == w ==> After(s, step, c).runs[w].sending)
  {
  }

  /** From the empty queue. */
  lemma QueueRetriesOnTime(steps: seq<Step>, c: Config)
    requires Path(IDLE, steps, c)
    ensures NoneEarly(IDLE, steps, c) <==> NoneOutdated(IDLE, steps, c)
  {
    OnTimeIffNoneOutdated(IDLE, steps, c);
  }

  // ---------------------------------------------------------------- runs that do not overlap

  /** One run at a time, and none of them takes failed events up again. */
  predicate Alone(s: State, step: Step) {
    step.Start? ==> s.runs == map[] && !step.includeFailed
  }

  predicate AlonePath(s: State, steps: seq<Step>, c: Config)
    decreases |steps|
  {
    steps != [] ==> Enabled(s, steps[0], c) && Alone(s, steps[0]) && AlonePath(After(s, steps[0], c), steps[1..], c)
  }

  /** Attempts and instants of one row. */
  ghost predicate RowInOrder(e: Event, clock: int, c: Config) {
    && (e.status.Pending? || e.status.Processing? ==> e.meta.attempts < c.maxAttempts)
    && (e.status.Failed? ==> e.meta.attempts == c.maxAttempts && e.meta.nextAttempt.None?)
    && (e.status.Processed? ==> e.meta.attempts < c.maxAttempts && e.meta.nextAttempt.None?)
    && (e.status.Processing? ==> e.processedAt.Some? && e.processedAt.value <= clock)
    && (e.status.Processing? && e.meta.nextAttempt.Some? ==> e.meta.nextAttempt.value <= e.processedAt.value)
  }

  /** What the run has in hand agrees with the rows. */
  ghost predicate RunInOrder(run: Run, rows: Rows, clock: int) {
    && !run.search.includeFailed && run.search.now <= clock && run.seen.Keys <= rows.Keys
    && (forall id :: id in run.held ==>
          && id in run.seen && rows[id].status.Processing? && rows[id].meta == run.seen[id].meta
          && rows[id].processedAt == Some(run.held[id]) && run.held[id] <= clock)
    && (!run.sending ==> forall id :: id in run.seen && id !in run.held ==> rows[id] == run.seen[id])
  }

  ghost predicate InOrderState(s: State, c: Config) {
    && (forall id :: id in s.rows ==> RowInOrder(s.rows[id], s.clock, c))
    && (forall w :: w in s.runs ==> RunInOrder(s.runs[w], s.rows, s.clock))
    && (forall w, v :: w in s.runs && v in s.runs ==> w == v)
  }

  /** The event is settled for good. */
  predicate Finished(e: Event) {
    e.status.Processed? || e.status.Failed?
  }

  /** What one step may do to a row: finished rows stay, attempts only grow, by one per failed send. */
  ghost predicate RowMoves(before: Event, after: Event) {
    && after.createdAt == before.createdAt
    && (Finished(before) ==> after == before)
    && before.meta.attempts <= after.meta.attempts
  }

  lemma RowsStayInOrder(s: State, step: Step, c: Config, id: Id)
    requires Usable(c) && InOrderState(s, c) && Enabled(s, step, c) && Alone(s, step)
    requires id in After(s, step, c).rows
    ensures RowInOrder(After(s, step, c).rows[id], After(s, step, c).clock, c)
    ensures id in s.rows ==> RowMoves(s.rows[id], After(s, step, c).rows[id])
  {
    if step.Save? && step.id == id {
      assert RunInOrder(s.runs[step.w], s.rows, s.clock);
    }
    if step.Claim? && step.id == id {
      assert RunInOrder(s.runs[step.w], s.rows, s.clock);
    }
  }

  lemma RunsStayInOrder(s: State, step: Step, c: Config, w: Worker)
    requires Usable(c) && InOrderState(s, c) && Enabled(s, step, c) && Alone(s, step)
    requires w in After(s, step, c).runs
    ensures RunInOrder(After(s, step, c).runs[w], After(s, step, c).rows, After(s, step, c).clock)
  {
    if w in s.runs { assert RunInOrder(s.runs[w], s.rows, s.clock); }
  }

  lemma StepStaysInOrder(s: State, step: Step, c: Config)
    requires Usable(c) && InOrderState(s, c) && Enabled(s, step, c) && Alone(s, step)
    ensures InOrderState(After(s, step, c), c)
    ensures s.rows.Keys <= After(s, step, c).rows.Keys
    ensures forall id :: id in s.rows ==> RowMoves(s.rows[id], After(s, step, c).rows[id])
  {
    forall id | id in After(s, step, c).rows
      ensures RowInOrder(After(s, step, c).rows[id], After(s, step, c).clock, c)
      ensures id in s.rows ==> RowMoves(s.rows[id], After(s, step, c).rows[id])
    {
      RowsStayInOrder(s, step, c, id);
    }
    forall w | w in After(s, step, c).runs
      ensures RunInOrder(After(s, step, c).runs[w], After(s, step, c).rows, After(s, step, c).clock)
    {
      RunsStayInOrder(s, step, c, w);
    }
  }

  /** Over any sequence of runs that do not overlap, with crashes anywhere: pending events have attempts left, failed
      ones have none, finished events never change again, attempts never decrease. */
  lemma {:induction false} RunsOneAtATime(s: State, steps: seq<Step>, c: Config)
    requires Usable(c) && InOrderState(s, c) && AlonePath(s, steps, c)
    ensures Path(s, steps, c) && InOrderState(Final(s, steps, c), c)
    ensures s.rows.Keys <= Final(s, steps, c).rows.Keys
    ensures forall id :: id in s.rows ==> RowMoves(s.rows[id], Final(s, steps, c).rows[id])
    decreases |steps|
  {
    if steps != [] {
      StepStaysInOrder(s, steps[0], c);
      RunsOneAtATime(After(s, steps[0], c), steps[1..], c);
    }
  }

  lemma IdleIsInOrder(c: Config)
    ensures InOrderState(IDLE, c)
  {
  }

  /** From the beginning of time: after any sequence of runs that do not overlap, pending events have attempts left
      and failed ones have used exactly all of them; whatever happens next, a finished event stays as it is. */
  lemma QueueStaysInOrder(steps: seq<Step>, more: seq<Step>, c: Config)
    requires Usable(c) && AlonePath(IDLE, steps, c)
    ensures Path(IDLE, steps, c)
    ensures var s := Final(IDLE, steps, c);
      && (forall id :: id in s.rows && s.rows[id].status.Pending? ==> s.rows[id].meta.attempts < c.maxAttempts)
      && (forall id :: id in s.rows && s.rows[id].status.Failed? ==> s.rows[id].meta.attempts == c.maxAttempts)
      && (AlonePath(s, more, c) ==>
            && Path(s, more, c)
            && forall id :: id in s.rows && Finished(s.rows[id]) ==>
                 id in Final(s, more, c).rows && Final(s, more, c).rows[id] == s.rows[id])
  {
    IdleIsInOrder(c);
    RunsOneAtATime(IDLE, steps, c);
    var s := Final(IDLE, steps, c);
    assert forall id :: id in s.rows ==> RowInOrder(s.rows[id], s.clock, c);
    if AlonePath(s, more, c) { RunsOneAtATime(s, more, c); }
  }

  /** One send: it comes no earlier than the recorded time, and a failure costs exactly one attempt and sets the next
      time no less than the base delay and no more than the maximum away. */
  lemma SendsOnTime(s: State, step: Step, c: Config)
    requires Usable(c) && InOrderState(s, c) && Enabled(s, step, c) && step.Save?
    ensures s.rows[step.id].meta.nextAttempt.Some? ==> s.rows[step.id].meta.nextAttempt.value <= step.sentAt
    ensures
      var before, after := s.rows[step.id], After(s, step, c).rows[step.id];
      if step.sent then after.status.Processed? && after.meta == Meta(before.meta.attempts, None)
      else
        && after.meta.attempts == before.meta.attempts + 1
        && (after.status.Failed? <==> after.meta.attempts == c.maxAttempts)
        && (after.status.Failed? ==> after.meta.nextAttempt.None?)
        && (!after.status.Failed? ==>
              && after.status.Pending? && after.meta.nextAttempt.Some?
              && step.failedAt + c.retryBase <= after.meta.nextAttempt.value <= step.failedAt + c.retryMax)
  {
    assert RunInOrder(s.runs[step.w], s.rows, s.clock);
    assert RowInOrder(s.rows[step.id], s.clock, c);
    DelaysGrow(c, s.rows[step.id].meta.attempts + 1, s.rows[step.id].meta.attempts + 1);
  }
}
