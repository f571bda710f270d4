/** The e-mail queue of wms/emailing.py: configuration, retry delays, and one undisturbed run. */
module EmailQueue {
  import opened Ids

  datatype Status = Pending | Processing | Processed | Failed

  /** The `_queue` entry of the payload. Instants are seconds. */
  datatype Meta = Meta(attempts: nat, nextAttempt: Option<int>)

  datatype Event = Event(createdAt: int, status: Status, processedAt: Option<int>, meta: Meta)

  type Rows = map<Id, Event>

  // ---------------------------------------------------------------- configuration

  datatype Config = Config(maxAttempts: int, retryBase: int, retryMax: int, timeout: int)

  ghost predicate Usable(c: Config) {
    c.maxAttempts >= 1 && 1 <= c.retryBase <= c.retryMax && c.timeout >= 1
  }

  /** `_safe_int`; `None` stands for a value that is no integer. */
  function SafeInt(value: Option<int>, fallback: int, minimum: int): (r: int)
    requires minimum <= fallback
    ensures r >= minimum
    ensures value.Some? && value.value >= minimum ==> r == value.value
  {
    match value
    case None => fallback
    case Some(v) => if v < minimum then minimum else v
  }

  /** A raw setting: what an argument or the runtime configuration holds. */
  datatype Raw = Raw(maxAttempts: Option<int>, retryBase: Option<int>, retryMax: Option<int>, timeout: Option<int>)

  /** Arguments override the runtime configuration when given; `None` of the outer option is an argument left out. */
  datatype Arguments = Arguments(
    maxAttempts: Option<Option<int>>, retryBase: Option<Option<int>>, retryMax: Option<Option<int>>,
    timeout: Option<Option<int>>)

  function Chosen(argument: Option<Option<int>>, setting: Option<int>): Option<int> {
    if argument.Some? then argument.value else setting
  }

  /** A limit follows the argument if one is given, else the setting; what is no number gives the fallback, and
      nothing goes below 1. */
  ghost predicate Follows(limit: int, argument: Option<Option<int>>, setting: Option<int>, fallback: int) {
    match argument
    case Some(Some(v)) => limit == if v < 1 then 1 else v
    case Some(None) => limit == fallback
    case None =>
      match setting
      case Some(v) => limit == if v < 1 then 1 else v
      case None => limit == fallback
  }

  /** The same with a floor: what was configured counts only where it reaches the floor. */
  ghost predicate FollowsAtLeast(
    limit: int, configured: int, argument: Option<Option<int>>, setting: Option<int>, fallback: int, floor: int)
  {
    && Follows(configured, argument, setting, fallback)
    && limit == if configured < floor then floor else configured
  }

  /** `_email_queue_config`: whatever is configured, the limits are usable. */
  function ResolveConfig(arguments: Arguments, settings: Raw): (c: Config)
    ensures Usable(c)
    ensures Follows(c.maxAttempts, arguments.maxAttempts, settings.maxAttempts, 5)
    ensures Follows(c.retryBase, arguments.retryBase, settings.retryBase, 60)
    ensures Follows(c.timeout, arguments.timeout, settings.timeout, 900)
    ensures exists most :: FollowsAtLeast(c.retryMax, most, arguments.retryMax, settings.retryMax, 3600, c.retryBase)
  {
    var base := SafeInt(Chosen(arguments.retryBase, settings.retryBase), 60, 1);
    var most := SafeInt(Chosen(arguments.retryMax, settings.retryMax), 3600, 1);
    assert FollowsAtLeast(
        if most < base then base else most, most, arguments.retryMax, settings.retryMax, 3600, base);
    Config(
      SafeInt(Chosen(arguments.maxAttempts, settings.maxAttempts), 5, 1),
      base,
      if most < base then base else most,
      SafeInt(Chosen(arguments.timeout, settings.timeout), 900, 1))
  }

  // ---------------------------------------------------------------- retry delays

  function Power2(n: nat): (p: nat)
    ensures p >= 1
  {
    if n == 0 then 1 else 2 * Power2(n - 1)
  }

  /** `_compute_retry_delay_seconds` */
  function RetryDelay(attempts: int, c: Config): int {
    var power := if attempts - 1 < 0 then 0 else attempts - 1;
    var delay := c.retryBase * Power2(power);
    if c.retryMax < delay then c.retryMax else delay
  }

  lemma {:induction false} PowerGrows(n: nat, m: nat)
    requires n <= m
    ensures Power2(n) <= Power2(m)
    decreases m
  {
    if n < m { PowerGrows(n, m - 1); }
  }

  lemma TimesGrows(k: int, a: int, b: int)
    requires k >= 0 && a <= b
    ensures k * a <= k * b
  {
  }

  /** Delays lie between the base and the maximum and never shrink from one attempt to a later one. */
  lemma DelaysGrow(c: Config, attempts: int, later: int)
    requires Usable(c) && attempts <= later
    ensures c.retryBase <= RetryDelay(attempts, c) <= RetryDelay(later, c) <= c.retryMax
  {
    var low := if attempts - 1 < 0 then 0 else attempts - 1;
    var high := if later - 1 < 0 then 0 else later - 1;
    PowerGrows(low, high);
    TimesGrows(c.retryBase, Power2(low), Power2(high));
    TimesGrows(c.retryBase, 1, Power2(low));
  }

  /** The first retry waits for the base delay; each further failure doubles the wait, up to the maximum. */
  lemma DelayDoubles(c: Config, n: int)
    requires Usable(c) && n >= 1
    ensures RetryDelay(1, c) == c.retryBase
    ensures RetryDelay(n + 1, c) == if 2 * RetryDelay(n, c) > c.retryMax then c.retryMax else 2 * RetryDelay(n, c)
  {
    assert Power2(0) == 1 && Power2(n) == 2 * Power2(n - 1);
    assert c.retryBase * Power2(n) == 2 * (c.retryBase * Power2(n - 1));
  }

  // ---------------------------------------------------------------- claims and results

  /** What a run looks for: its start, and whether failed events are taken up again. */
  datatype Search = Search(now: int, includeFailed: bool)

  /** `_queue_claim_filter` */
  predicate Claimable(e: Event, search: Search, timeout: int) {
    || e.status.Pending? || (search.includeFailed && e.status.Failed?)
    || (e.status.Processing? && e.processedAt.Some? && e.processedAt.value <= search.now - timeout)
  }

  /** `_should_defer_event` */
  predicate Deferred(e: Event, now: int) {
    e.status.Pending? && e.meta.nextAttempt.Some? && e.meta.nextAttempt.value > now
  }

  function Claimed(e: Event, now: int): Event {
    e.(status := Processing, processedAt := Some(now))
  }

  datatype Outcome = SentOff | GaveUp | Retry

  /** Which of the three results a send has. */
  function OutcomeOf(meta: Meta, sent: bool, c: Config): (o: Outcome) {
    if sent then SentOff else if meta.attempts + 1 >= c.maxAttempts then GaveUp else Retry
  }

  /** `_apply_send_result` and the save that follows it: the row takes the status, the instant and the payload
      that the run holds, whatever the row has become meanwhile. */
  function Resulting(row: Event, meta: Meta, sent: bool, sentAt: int, failedAt: int, c: Config): Event {
    match OutcomeOf(meta, sent, c)
    case SentOff => row.(status := Processed, processedAt := Some(sentAt), meta := Meta(meta.attempts, None))
    case GaveUp => row.(status := Failed, processedAt := Some(sentAt), meta := Meta(meta.attempts + 1, None))
    case Retry =>
      row.(status := Pending, processedAt := Some(sentAt),
           meta := Meta(meta.attempts + 1, Some(failedAt + RetryDelay(meta.attempts + 1, c))))
  }

  // ---------------------------------------------------------------- the order of the queue

  /** The (created_at, id) order. */
  predicate Precedes(rows: Rows, x: Id, y: Id)
    requires x in rows && y in rows
  {
    rows[x].createdAt < rows[y].createdAt || (rows[x].createdAt == rows[y].createdAt && x < y)
  }

  ghost predicate InOrder(rows: Rows, ids: seq<Id>) {
    && (forall i :: 0 <= i < |ids| ==> ids[i] in rows)
    && (forall i, j :: 0 <= i < j < |ids| ==> Precedes(rows, ids[i], ids[j]))
  }

  /** The rows of a query ordered by (created_at, id). */
  function InQueueOrder(rows: Rows, s: set<Id>): (ids: seq<Id>)
    requires s <= rows.Keys
    ensures InOrder(rows, ids)
    ensures forall x :: x in ids <==> x in s
  {
    var ids := SortBy((x, y) => x in rows && y in rows && Precedes(rows, x, y), s);
    assert forall i :: 0 <= i < |ids| ==> ids[i] in s;
    ids
  }

  // ---------------------------------------------------------------- the scan

  /** The last row read; the scan goes on behind it. */
  datatype Cursor = Top | At(createdAt: int, id: Id) {
    predicate Passed(e: Event, id: Id) {
      At? && (e.createdAt < createdAt || (e.createdAt == createdAt && id <= this.id))
    }
  }

  /** Selectable rows that are not waiting for a retry. */
  ghost predicate Eligible(rows: Rows, id: Id, search: Search, timeout: int) {
    id in rows && Claimable(rows[id], search, timeout) && !Deferred(rows[id], search.now)
  }

  /** Rows a run reads but leaves for later. */
  ghost predicate Waiting(rows: Rows, id: Id, search: Search, timeout: int) {
    id in rows && Claimable(rows[id], search, timeout) && Deferred(rows[id], search.now)
  }

  /** The first eligible rows in queue order, no more than the limit. */
  ghost predicate FirstEligible(before: Rows, selected: seq<Id>, limit: nat, search: Search, timeout: int) {
    && InOrder(before, selected) && |selected| <= limit
    && (forall x :: x in selected ==> Eligible(before, x, search, timeout))
    && (forall y :: Eligible(before, y, search, timeout) && y !in selected ==>
          |selected| == limit && forall x :: x in selected ==> Precedes(before, x, y))
  }

  /** The rows that were read and not selected: those waiting for a retry, up to the last selected one if the limit was
      reached. */
  ghost predicate LeftForLater(
    before: Rows, skipped: set<Id>, selected: seq<Id>, limit: nat, search: Search, timeout: int)
  {
    forall x :: x in skipped <==>
      && Waiting(before, x, search, timeout)
      && (limit > 0 && |selected| == limit && selected[limit - 1] in before ==>
            Precedes(before, x, selected[limit - 1]))
  }

  /** The selected rows carry this run's claim, the others are as they were. */
  ghost predicate ClaimedOnly(before: Rows, rows: Rows, selected: seq<Id>, search: Search) {
    && rows.Keys == before.Keys
    && (forall x :: x in before && x !in selected ==> rows[x] == before[x])
    && (forall x :: x in selected && x in before ==> exists t :: t >= search.now && rows[x] == Claimed(before[x], t))
  }

  /** Who is selected: pending rows that are due, failed ones if they are taken up again, and rows whose claim is as old
      as the timeout; with room left nobody of these is missed. */
  lemma SelectedTell(before: Rows, selected: seq<Id>, limit: nat, search: Search, timeout: int)
    requires FirstEligible(before, selected, limit, search, timeout)
    ensures forall x :: x in selected ==> x in before && Due(before[x], search, timeout)
    ensures |selected| < limit ==> forall y :: y in before && Due(before[y], search, timeout) ==> y in selected
    ensures forall i, j :: 0 <= i < j < |selected| ==> Older(before, selected[i], selected[j])
    ensures forall x, y :: x in selected && y in before && Due(before[y], search, timeout) && y !in selected ==>
      Older(before, x, y)
  {
    forall x, y | x in selected && y in before && Due(before[y], search, timeout) && y !in selected
      ensures Older(before, x, y)
    {
      assert Eligible(before, y, search, timeout);
      assert Precedes(before, x, y);
    }
    forall i, j | 0 <= i < j < |selected| ensures Older(before, selected[i], selected[j]) {
      assert Precedes(before, selected[i], selected[j]);
    }
    forall y | |selected| < limit && y in before && Due(before[y], search, timeout) ensures y in selected {
      assert Eligible(before, y, search, timeout);
    }
    forall x | x in selected ensures x in before && Due(before[x], search, timeout) {
      assert Eligible(before, x, search, timeout);
    }
  }

  /** Who is left for later: pending rows whose next attempt is still to come; with room left all of them. */
  lemma LeftTell(before: Rows, skipped: set<Id>, selected: seq<Id>, limit: nat, search: Search, timeout: int)
    requires LeftForLater(before, skipped, selected, limit, search, timeout)
    ensures forall x :: x in skipped ==> x in before && Early(before[x], search.now)
    ensures |selected| < limit ==> forall y :: y in before && Early(before[y], search.now) ==> y in skipped
  {
    forall x | x in skipped ensures x in before && Early(before[x], search.now) {
      assert Waiting(before, x, search, timeout);
    }
    forall y | |selected| < limit && y in before && Early(before[y], search.now) ensures y in skipped {
      assert Waiting(before, y, search, timeout);
    }
  }

  ghost predicate Early(e: Event, now: int) {
    e.status.Pending? && e.meta.nextAttempt.Some? && now < e.meta.nextAttempt.value
  }

  /** Created earlier, or at the same time under a smaller key. */
  ghost predicate Older(rows: Rows, x: Id, y: Id) {
    && x in rows && y in rows && rows[x].createdAt <= rows[y].createdAt
    && (rows[x].createdAt == rows[y].createdAt ==> x < y)
  }

  /** By status. */
  ghost predicate Due(e: Event, search: Search, timeout: int) {
    match e.status
    case Pending => e.meta.nextAttempt.None? || e.meta.nextAttempt.value <= search.now
    case Failed => search.includeFailed
    case Processing => e.processedAt.Some? && search.now - e.processedAt.value >= timeout
    case Processed => false
  }

  /** What a claim writes. */
  lemma ClaimTells(before: Rows, rows: Rows, selected: seq<Id>, search: Search, x: Id)
    requires ClaimedOnly(before, rows, selected, search) && x in before && x in selected
    ensures x in rows && rows[x].status.Processing? && rows[x].processedAt.Some?
    ensures rows[x].processedAt.value >= search.now
    ensures rows[x].createdAt == before[x].createdAt && rows[x].meta == before[x].meta
  {
  }

  /** What the scan has done up to the cursor. */
  ghost predicate Scanned(
    before: Rows, rows: Rows, selected: seq<Id>, skipped: set<Id>, cursor: Cursor, search: Search, timeout: int)
  {
    && InOrder(before, selected) && ClaimedOnly(before, rows, selected, search)
    && (forall x :: x in selected ==> Eligible(before, x, search, timeout) && cursor.Passed(before[x], x))
    && (forall x :: Eligible(before, x, search, timeout) && cursor.Passed(before[x], x) ==> x in selected)
    && (forall x :: x in skipped <==> Waiting(before, x, search, timeout) && cursor.Passed(before[x], x))
  }

  /** The rest of a batch: all claimable rows behind the cursor, up to the last of the batch. */
  ghost predicate Coming(before: Rows, batch: seq<Id>, cursor: Cursor, search: Search, timeout: int) {
    && InOrder(before, batch)
    && (forall x :: x in batch ==> Claimable(before[x], search, timeout) && !cursor.Passed(before[x], x))
    && (forall y ::
          y in before && Claimable(before[y], search, timeout) && !cursor.Passed(before[y], y) && y !in batch ==>
          forall x :: x in batch ==> Precedes(before, x, y))
  }

  /** The next batch of the scan, cut to the batch size. */
  method ReadBatch(rows: Rows, cursor: Cursor, size: nat, search: Search, timeout: int) returns (batch: seq<Id>)
    requires size > 0
    ensures Coming(rows, batch, cursor, search, timeout) && |batch| <= size
    ensures |batch| < size
      ==> forall y :: y in rows && Claimable(rows[y], search, timeout) && !cursor.Passed(rows[y], y) ==> y in batch
    ensures batch == [] ==> forall y :: y in rows && Claimable(rows[y], search, timeout) ==> cursor.Passed(rows[y], y)
  {
    var all := InQueueOrder(rows, set x | x in rows && Claimable(rows[x], search, timeout)
        && !cursor.Passed(rows[x], x));
    assert forall y :: y in rows && Claimable(rows[y], search, timeout) && !cursor.Passed(rows[y], y) ==> y in all;
    batch := if |all| > size then all[..size] else all;
    assert forall x :: x in batch ==> x in all;
  }

  /** Rows behind the cursor are untouched, so a batch read now is a batch of the rows at the start. */
  lemma ComingFromStart(
    before: Rows, rows: Rows, selected: seq<Id>, skipped: set<Id>, batch: seq<Id>, cursor: Cursor, search: Search,
    timeout: int)
    requires Scanned(before, rows, selected, skipped, cursor, search, timeout)
    requires Coming(rows, batch, cursor, search, timeout)
    ensures Coming(before, batch, cursor, search, timeout)
  {
    forall x | x in before ensures rows[x].createdAt == before[x].createdAt {
    }
    assert forall x :: x in before && !cursor.Passed(before[x], x) ==> x !in selected;
  }

  function CursorAt(rows: Rows, x: Id): Cursor
    requires x in rows
  {
    At(rows[x].createdAt, x)
  }

  /** The next row of a batch is the first claimable one behind the cursor. */
  lemma CursorMoves(before: Rows, batch: seq<Id>, cursor: Cursor, search: Search, timeout: int)
    requires Coming(before, batch, cursor, search, timeout) && batch != []
    ensures Coming(before, batch[1..], CursorAt(before, batch[0]), search, timeout)
    ensures forall y :: y in before && Claimable(before[y], search, timeout) ==>
      (CursorAt(before, batch[0]).Passed(before[y], y) <==> cursor.Passed(before[y], y) || y == batch[0])
  {
    var x := batch[0];
    assert x in batch && !cursor.Passed(before[x], x);
    assert forall k :: 1 <= k < |batch| ==> Precedes(before, x, batch[k]);
    assert forall y :: y in batch ==> y == x || y in batch[1..];
    assert forall y :: y in batch[1..] ==> y in batch && Precedes(before, x, y);
  }

  lemma ScannedDeferred(
    before: Rows, rows: Rows, selected: seq<Id>, skipped: set<Id>, batch: seq<Id>, cursor: Cursor, search: Search,
    timeout: int)
    requires Scanned(before, rows, selected, skipped, cursor, search, timeout)
    requires Coming(before, batch, cursor, search, timeout)
    requires batch != [] && Deferred(before[batch[0]], search.now)
    ensures Scanned(before, rows, selected, skipped + {batch[0]}, CursorAt(before, batch[0]), search, timeout)
    ensures batch[0] !in skipped
  {
    assert batch[0] in batch;
    CursorMoves(before, batch, cursor, search, timeout);
  }

  lemma ScannedClaimed(
    before: Rows, rows: Rows, selected: seq<Id>, skipped: set<Id>, batch: seq<Id>, cursor: Cursor, search: Search,
    timeout: int, t: int)
    requires Scanned(before, rows, selected, skipped, cursor, search, timeout)
    requires Coming(before, batch, cursor, search, timeout)
    requires batch != [] && !Deferred(before[batch[0]], search.now) && t >= search.now
    ensures batch[0] in rows && rows[batch[0]] == before[batch[0]]
    ensures
      var x := batch[0];
      var rows', selected' := rows[x := Claimed(rows[x], t)], selected + [x];
      Scanned(before, rows', selected', skipped, CursorAt(before, x), search, timeout)
  {
    var x := batch[0];
    assert x in batch && !cursor.Passed(before[x], x);
    CursorMoves(before, batch, cursor, search, timeout);
    assert x !in selected;
    assert forall i :: 0 <= i < |selected| ==> selected[i] in selected;
    assert forall i :: 0 <= i < |selected| ==> Precedes(before, selected[i], x);
  }

  lemma NextIsFresh(
    before: Rows, rows: Rows, selected: seq<Id>, skipped: set<Id>, batch: seq<Id>, cursor: Cursor, search: Search,
    timeout: int)
    requires Scanned(before, rows, selected, skipped, cursor, search, timeout)
    requires Coming(before, batch, cursor, search, timeout) && batch != []
    ensures batch[0] in rows && batch[0] in before && rows[batch[0]] == before[batch[0]]
    ensures Claimable(before[batch[0]], search, timeout)
  {
    assert batch[0] in batch;
  }

  lemma NothingBehind(
    before: Rows, rows: Rows, selected: seq<Id>, skipped: set<Id>, cursor: Cursor, search: Search, timeout: int)
    requires Scanned(before, rows, selected, skipped, cursor, search, timeout)
    requires forall y :: y in rows && Claimable(rows[y], search, timeout) ==> cursor.Passed(rows[y], y)
    ensures forall y :: y in before && Claimable(before[y], search, timeout) ==> cursor.Passed(before[y], y)
  {
  }

  ghost predicate Ticking(clock: nat -> int) {
    forall i, j | i <= j :: clock(i) <= clock(j)
  }

  /** Claimable rows still behind the cursor. */
  ghost function Behind(before: Rows, cursor: Cursor, search: Search, timeout: int): set<Id> {
    set x | x in before && Claimable(before[x], search, timeout) && !cursor.Passed(before[x], x)
  }

  lemma BehindShrinks(before: Rows, batch: seq<Id>, cursor: Cursor, search: Search, timeout: int)
    requires Coming(before, batch, cursor, search, timeout) && batch != []
    ensures Behind(before, CursorAt(before, batch[0]), search, timeout)
        == Behind(before, cursor, search, timeout) - {batch[0]}
    ensures batch[0] in Behind(before, cursor, search, timeout)
  {
    assert batch[0] in batch;
    CursorMoves(before, batch, cursor, search, timeout);
  }

  lemma ScanIsComplete(
    before: Rows, rows: Rows, selected: seq<Id>, skipped: set<Id>, cursor: Cursor, limit: nat, search: Search,
    timeout: int)
    requires Scanned(before, rows, selected, skipped, cursor, search, timeout) && |selected| <= limit
    requires |selected| == limit || forall y :: y in before && Claimable(before[y], search, timeout) ==>
      cursor.Passed(before[y], y)
    requires |selected| == limit > 0 ==>
      selected[limit - 1] in before && cursor == CursorAt(before, selected[limit - 1])
    ensures FirstEligible(before, selected, limit, search, timeout)
    ensures limit > 0 ==> forall x :: x in skipped <==>
      Waiting(before, x, search, timeout) && (|selected| == limit ==> Precedes(before, x, selected[limit - 1]))
  {
  }

  class Queue {
    var rows: Rows

    constructor (rows: Rows)
      ensures this.rows == rows
    {
      this.rows := rows;
    }

    /** The loop over one batch. */
    method ClaimBatch(
      batch: seq<Id>, chosen: seq<Id>, limit: nat, search: Search, timeout: int, clock: nat -> int, tick: nat,
      ghost before: Rows, ghost left: set<Id>, ghost cursor: Cursor)
      returns (selected: seq<Id>, deferred: nat, cursor': Cursor, tick': nat, ghost skipped: set<Id>)
      requires batch != [] && |chosen| < limit && Ticking(clock) && search.now <= clock(0)
      requires Scanned(before, rows, chosen, left, cursor, search, timeout)
      requires Coming(before, batch, cursor, search, timeout)
      modifies this
      ensures Scanned(before, rows, selected, skipped, cursor', search, timeout) && |selected| <= limit
      ensures |selected| == limit ==> cursor' == CursorAt(before, selected[limit - 1])
      ensures left <= skipped && deferred == |skipped| - |left|
      ensures Behind(before, cursor', search, timeout) < Behind(before, cursor, search, timeout)
    {
      selected, deferred, cursor', tick', skipped := chosen, 0, Top, tick, left;
      ghost var at := cursor;
      var rest := batch;
      while rest != []
        invariant Scanned(before, rows, selected, skipped, at, search, timeout) && |selected| < limit
        invariant Coming(before, rest, at, search, timeout)
        invariant rest
            == batch || (cursor' == at && Behind(before, at, search, timeout) < Behind(before, cursor, search, timeout))
        invariant rest == batch ==> at == cursor
        invariant left <= skipped && deferred == |skipped| - |left|
        decreases |rest|
      {
        var id := rest[0];
        NextIsFresh(before, rows, selected, skipped, rest, at, search, timeout);
        BehindShrinks(before, rest, at, search, timeout);
        CursorMoves(before, rest, at, search, timeout);
        cursor' := CursorAt(rows, id);
        if Deferred(rows[id], search.now) {
          ScannedDeferred(before, rows, selected, skipped, rest, at, search, timeout);
          skipped := skipped + {id};
          deferred := deferred + 1;
        } else if Claimable(rows[id], search, timeout) {
          assert clock(0) <= clock(tick');
          ScannedClaimed(before, rows, selected, skipped, rest, at, search, timeout, clock(tick'));
          rows := rows[id := Claimed(rows[id], clock(tick'))];
          tick' := tick' + 1;
          selected := selected + [id];
          if |selected| >= limit {
            return;
          }
        }
        at := cursor';
        rest := rest[1..];
      }
    }

    /** The selection loop of `process_email_queue`, undisturbed by other runs. */
    method Select(limit: nat, size: nat, search: Search, timeout: int, clock: nat -> int)
      returns (selected: seq<Id>, deferred: nat, tick: nat, ghost skipped: set<Id>)
      requires size > 0 && limit > 0 && Ticking(clock) && search.now <= clock(0)
      modifies this
      ensures FirstEligible(old(rows), selected, limit, search, timeout)
      ensures ClaimedOnly(old(rows), rows, selected, search)
      ensures deferred == |skipped|
      ensures LeftForLater(old(rows), skipped, selected, limit, search, timeout)
    {
      ghost var before := rows;
      var cursor := Top;
      selected, deferred, tick, skipped := [], 0, 0, {};
      while |selected| < limit
        invariant Scanned(before, rows, selected, skipped, cursor, search, timeout)
        invariant deferred == |skipped| && |selected| <= limit
        invariant |selected| == limit ==> cursor == CursorAt(before, selected[limit - 1])
        decreases Behind(before, cursor, search, timeout)
      {
        var batch := ReadBatch(rows, cursor, size, search, timeout);
        if batch == [] {
          NothingBehind(before, rows, selected, skipped, cursor, search, timeout);
          break;
        }
        ComingFromStart(before, rows, selected, skipped, batch, cursor, search, timeout);
        var more;
        selected, more, cursor, tick, skipped := ClaimBatch(
          batch, selected, limit, search, timeout, clock, tick, before, skipped, cursor);
        deferred := deferred + more;
      }
      ScanIsComplete(before, rows, selected, skipped, cursor, limit, search, timeout);
    }

    /** The sending loop of `process_email_queue`. The payloads were read before the claims. */
    method SendAll(
      selected: seq<Id>, payloads: map<Id, Meta>, c: Config, clock: nat -> int, start: nat, send: nat -> bool)
      returns (counts: Counts)
      requires forall x :: x in selected ==> x in rows && x in payloads
      requires forall i, j :: 0 <= i < j < |selected| ==> selected[i] != selected[j]
      requires Ticking(clock)
      modifies this
      ensures AllSent(old(rows), rows, selected, payloads, c, clock, start, send)
      ensures counts == Counted(selected, payloads, send, c)
    {
      var tick := start;
      counts := Counts(0, 0, 0);
      for k := 0 to |selected|
        invariant tick >= start
        invariant AllSent(old(rows), rows, selected[..k], payloads, c, clock, start, send)
        invariant counts == Counted(selected[..k], payloads, send, c)
      {
        var id := selected[k];
        assert selected[..k + 1] == selected[..k] + [id];
        var row := Resulting(rows[id], payloads[id], send(k), clock(tick), clock(tick + 1), c);
        SendOne(rows, id, row, payloads[id], send(k), c, clock, start, tick);
        assert |selected[..k]| == k;
        AllSentStep(old(rows), rows, selected[..k], id, row, payloads, c, clock, start, send);
        rows := rows[id := row];
        counts := counts.Plus(OutcomeOf(payloads[id], send(k), c));
        tick := tick + 2;
      }
      assert selected[..|selected|] == selected;
    }

    /** `process_email_queue` */
    method Process(
      limit: Option<int>, includeFailed: bool, arguments: Arguments, settings: Raw, clock: nat -> int,
      send: nat -> bool)
      returns (result: Result, ghost selected: seq<Id>, ghost skipped: set<Id>)
      requires Ticking(clock)
      modifies this
      ensures
        var c, most, search := ResolveConfig(arguments, settings), SafeInt(limit, 100, 1),
            Search(clock(0), includeFailed);
        && FirstEligible(old(rows), selected, most, search, c.timeout)
        && rows.Keys == old(rows).Keys && (forall x :: x in rows && x !in selected ==> rows[x] == old(rows)[x])
        && (forall k :: 0 <= k < |selected| ==>
              SentAt(old(rows), rows, selected[k], old(rows)[selected[k]].meta, send(k), c, clock, 0))
        && result.selected == |selected| == result.counts.processed + result.counts.failed + result.counts.retried
        && result.counts == Counted(selected, MetaOf(old(rows)), send, c)
        && result.deferred == |skipped|
        && LeftForLater(old(rows), skipped, selected, most, search, c.timeout)
    {
      ghost var before := rows;
      var most := SafeInt(limit, 100, 1);
      var c := ResolveConfig(arguments, settings);
      var search := Search(clock(0), includeFailed);
      var size := if most * 5 < 50 then 50 else most * 5;
      var payloads := MetaOf(rows);
      var chosen, deferred, tick;
      chosen, deferred, tick, skipped := Select(most, size, search, c.timeout, clock);
      ghost var claimed := rows;
      var counts := SendAll(chosen, payloads, c, clock, tick, send);
      selected := chosen;
      ClaimsLeaveNoTrace(before, claimed, rows, selected, search, c, clock, tick, send);
      CountsAddUp(selected, payloads, send, c);
      result := Result(|chosen|, counts, deferred);
    }
  }

  function MetaOf(rows: Rows): map<Id, Meta> {
    map x | x in rows :: rows[x].meta
  }

  datatype Counts = Counts(processed: nat, failed: nat, retried: nat) {
    function Plus(o: Outcome): Counts {
      match o
      case SentOff => this.(processed := processed + 1)
      case GaveUp => this.(failed := failed + 1)
      case Retry => this.(retried := retried + 1)
    }
  }

  datatype Result = Result(selected: nat, counts: Counts, deferred: nat)

  function Counted(selected: seq<Id>, payloads: map<Id, Meta>, send: nat -> bool, c: Config): Counts
    requires forall x :: x in selected ==> x in payloads
  {
    if selected == [] then Counts(0, 0, 0)
    else
      var k := |selected| - 1;
      assert selected[k] in selected;
      Counted(selected[..k], payloads, send, c).Plus(OutcomeOf(payloads[selected[k]], send(k), c))
  }

  lemma CountsAddUp(selected: seq<Id>, payloads: map<Id, Meta>, send: nat -> bool, c: Config)
    requires forall x :: x in selected ==> x in payloads
    ensures var n := Counted(selected, payloads, send, c); n.processed + n.failed + n.retried == |selected|
  {
    if selected != [] { CountsAddUp(selected[..|selected| - 1], payloads, send, c); }
  }

  /** What a send leaves in the row. */
  lemma SentTells(
    before: Rows, rows: Rows, id: Id, meta: Meta, sent: bool, c: Config, clock: nat -> int, start: nat)
    requires SentAt(before, rows, id, meta, sent, c, clock, start) && Ticking(clock)
    ensures rows[id].createdAt == before[id].createdAt
    ensures rows[id].processedAt.Some? && rows[id].processedAt.value >= clock(start)
    ensures sent ==> rows[id].status.Processed? && rows[id].meta == Meta(meta.attempts, None)
    ensures !sent ==> rows[id].meta.attempts == meta.attempts + 1
    ensures !sent && meta.attempts + 1 >= c.maxAttempts ==>
      rows[id].status.Failed? && rows[id].meta.nextAttempt.None?
    ensures !sent && meta.attempts + 1 < c.maxAttempts ==>
      && rows[id].status.Pending? && rows[id].meta.nextAttempt.Some?
      && exists n: nat :: n > start && rows[id].meta.nextAttempt.value == clock(n) + RetryDelay(meta.attempts + 1, c)
  {
    var n: nat :| n >= start && SentAtTick(before[id], rows[id], meta, sent, c, clock, n);
    assert clock(start) <= clock(n);
    if !sent && meta.attempts + 1 < c.maxAttempts {
      var m: nat := n + 1;
      assert rows[id].meta.nextAttempt.value == clock(m) + RetryDelay(meta.attempts + 1, c);
    }
  }

  /** Two failures in a row: from the failure to the next instant it is the base at first, and then twice as long as
      before, up to the maximum. */
  lemma WaitsDouble(before: Event, between: Event, after: Event, c: Config, clock: nat -> int, n: nat, m: nat)
    requires Usable(c) && SentAtTick(before, between, before.meta, false, c, clock, n) && between.status.Pending?
    requires SentAtTick(between, after, between.meta, false, c, clock, m) && after.status.Pending?
    ensures between.meta.nextAttempt.Some? && after.meta.nextAttempt.Some?
    ensures before.meta.attempts == 0 ==> between.meta.nextAttempt.value - clock(n + 1) == c.retryBase
    ensures var first, second :=
        between.meta.nextAttempt.value - clock(n + 1), after.meta.nextAttempt.value - clock(m + 1);
      second == if 2 * first > c.retryMax then c.retryMax else 2 * first
  {
    DelayDoubles(c, before.meta.attempts + 1);
  }

  /** The sends that succeeded, that failed for good, and that failed with attempts left. */
  ghost function Sends(selected: seq<Id>, rows: Rows, send: nat -> bool, c: Config, o: Outcome): set<nat>
    requires forall x :: x in selected ==> x in rows
  {
    set k: nat | k < |selected| && EndsAs(selected[k], rows, send(k), c, o)
  }

  ghost predicate EndsAs(x: Id, rows: Rows, sent: bool, c: Config, o: Outcome) {
    && x in rows
    && match o
       case SentOff => sent
       case GaveUp => !sent && rows[x].meta.attempts + 1 >= c.maxAttempts
       case Retry => !sent && rows[x].meta.attempts + 1 < c.maxAttempts
  }

  /** The counters are the numbers of these sends. */
  lemma {:induction false} CountsTell(selected: seq<Id>, rows: Rows, send: nat -> bool, c: Config)
    requires forall x :: x in selected ==> x in rows
    ensures var counts := Counted(selected, MetaOf(rows), send, c);
      && counts.processed == |Sends(selected, rows, send, c, SentOff)|
      && counts.failed == |Sends(selected, rows, send, c, GaveUp)|
      && counts.retried == |Sends(selected, rows, send, c, Retry)|
    decreases |selected|
  {
    if selected != [] {
      var k := |selected| - 1;
      assert selected[k] in selected;
      CountsTell(selected[..k], rows, send, c);
      SendsByOne(selected, rows, send, c, SentOff);
      SendsByOne(selected, rows, send, c, GaveUp);
      SendsByOne(selected, rows, send, c, Retry);
    }
  }

  lemma SendsByOne(selected: seq<Id>, rows: Rows, send: nat -> bool, c: Config, o: Outcome)
    requires selected != [] && forall x :: x in selected ==> x in rows
    ensures var k: nat := |selected| - 1;
      |Sends(selected, rows, send, c, o)|
      == |Sends(selected[..k], rows, send, c, o)| + if EndsAs(selected[k], rows, send(k), c, o) then 1 else 0
  {
    var k: nat := |selected| - 1;
    var all, front := Sends(selected, rows, send, c, o), Sends(selected[..k], rows, send, c, o);
    SendsAre(selected, rows, send, c, o);
    assert k !in front;
    assert EndsAs(selected[k], rows, send(k), c, o) ==> |front + {k}| == |front| + 1;
  }

  lemma SendsAre(selected: seq<Id>, rows: Rows, send: nat -> bool, c: Config, o: Outcome)
    requires selected != [] && forall x :: x in selected ==> x in rows
    ensures var k: nat := |selected| - 1;
      Sends(selected, rows, send, c, o)
      == Sends(selected[..k], rows, send, c, o) + if EndsAs(selected[k], rows, send(k), c, o) then {k} else {}
  {
    var k: nat := |selected| - 1;
    forall j: nat
      ensures j in Sends(selected, rows, send, c, o) <==>
        j in Sends(selected[..k], rows, send, c, o) || (j == k && EndsAs(selected[k], rows, send(k), c, o))
    {
      assert j < k ==> selected[..k][j] == selected[j];
    }
  }

  /** The row is the result of one send of the payload. */
  ghost predicate SentAt(
    before: Rows, rows: Rows, id: Id, meta: Meta, sent: bool, c: Config, clock: nat -> int, start: nat)
  {
    && id in before && id in rows
    && exists n: nat :: n >= start && SentAtTick(before[id], rows[id], meta, sent, c, clock, n)
  }

  ghost predicate SentAtTick(
    before: Event, after: Event, meta: Meta, sent: bool, c: Config, clock: nat -> int, n: nat)
  {
    after == Resulting(before, meta, sent, clock(n), clock(n + 1), c)
  }

  /** The rows of the sends made so far, in order, and no others. */
  ghost predicate AllSent(
    before: Rows, rows: Rows, done: seq<Id>, payloads: map<Id, Meta>, c: Config, clock: nat -> int, start: nat,
    send: nat -> bool)
  {
    && rows.Keys == before.Keys && (forall x :: x in rows && x !in done ==> rows[x] == before[x])
    && (forall k :: 0 <= k < |done| ==>
          done[k] in payloads && SentAt(before, rows, done[k], payloads[done[k]], send(k), c, clock, start))
  }

  lemma AllSentStep(
    before: Rows, rows: Rows, done: seq<Id>, id: Id, row: Event, payloads: map<Id, Meta>, c: Config, clock: nat -> int,
    start: nat, send: nat -> bool)
    requires AllSent(before, rows, done, payloads, c, clock, start, send)
    requires id in rows && id !in done && id in payloads
    requires SentAt(rows, rows[id := row], id, payloads[id], send(|done|), c, clock, start)
    ensures AllSent(before, rows[id := row], done + [id], payloads, c, clock, start, send)
  {
    var after := rows[id := row];
    forall k | 0 <= k < |done|
      ensures done[k] in payloads && SentAt(before, after, done[k], payloads[done[k]], send(k), c, clock, start)
    {
      assert done[k] in done;
      SentElsewhere(before, rows, after, done[k], payloads[done[k]], send(k), c, clock, start);
    }
  }

  lemma SendOne(
    rows: Rows, id: Id, row: Event, meta: Meta, sent: bool, c: Config, clock: nat -> int, start: nat, tick: nat)
    requires id in rows && tick >= start && row == Resulting(rows[id], meta, sent, clock(tick), clock(tick + 1), c)
    ensures SentAt(rows, rows[id := row], id, meta, sent, c, clock, start)
  {
    assert SentAtTick(rows[id], rows[id := row][id], meta, sent, c, clock, tick);
  }

  lemma SentElsewhere(
    before: Rows, rows: Rows, after: Rows, id: Id, meta: Meta, sent: bool, c: Config, clock: nat -> int, start: nat)
    requires SentAt(before, rows, id, meta, sent, c, clock, start) && id in after && after[id] == rows[id]
    ensures SentAt(before, after, id, meta, sent, c, clock, start)
  {
  }

  /** The save overwrites everything the claim wrote. */
  lemma ClaimLeavesNoTrace(
    before: Rows, claimed: Rows, rows: Rows, id: Id, meta: Meta, sent: bool, c: Config, clock: nat -> int, start: nat)
    requires id in before && id in claimed && (exists t :: claimed[id] == Claimed(before[id], t))
    requires SentAt(claimed, rows, id, meta, sent, c, clock, start)
    ensures SentAt(before, rows, id, meta, sent, c, clock, 0)
  {
    var n: nat :| n >= start && SentAtTick(claimed[id], rows[id], meta, sent, c, clock, n);
    assert SentAtTick(before[id], rows[id], meta, sent, c, clock, n);
  }

  lemma ClaimsLeaveNoTrace(
    before: Rows, claimed: Rows, rows: Rows, selected: seq<Id>, search: Search, c: Config, clock: nat -> int,
    start: nat,
    send: nat -> bool)
    requires ClaimedOnly(before, claimed, selected, search) && forall x :: x in selected ==> x in before
    requires AllSent(claimed, rows, selected, MetaOf(before), c, clock, start, send)
    ensures rows.Keys == before.Keys && forall x :: x in rows && x !in selected ==> rows[x] == before[x]
    ensures forall k :: 0 <= k < |selected| ==>
      selected[k] in before
      && SentAt(before, rows, selected[k], before[selected[k]].meta, send(k), c, clock, 0)
  {
    forall k | 0 <= k < |selected|
      ensures selected[k] in before
        && SentAt(before, rows, selected[k], before[selected[k]].meta, send(k), c, clock, 0)
    {
      assert selected[k] in selected;
      ClaimLeavesNoTrace(before, claimed, rows, selected[k], before[selected[k]].meta, send(k), c, clock, start);
    }
  }
}
