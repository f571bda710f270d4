/** The throttle of account requests (wms/account_request_handlers.py): a slot is two cache keys, added one after the
    other by an atomic add-if-absent. No key expires here. */
module Throttle {
  import opened Ids
  import Text

  datatype Key = EmailKey(email: string) | IpKey(ip: string)

  /** The text under which the cache stores the key. */
  function KeyText(k: Key): string {
    match k
    case EmailKey(email) => "account-request:email:" + email
    case IpKey(ip) => "account-request:ip:" + ip
  }

  /** Two keys never share a cache entry, whatever was typed as an e-mail address. */
  lemma KeysDiffer(k: Key, other: Key)
    requires KeyText(k) == KeyText(other)
    ensures k == other
  {
    assert KeyText(k)[16] == (if k.EmailKey? then 'e' else 'i');
    assert KeyText(other)[16] == (if other.EmailKey? then 'e' else 'i');
    if k.EmailKey? {
      assert KeyText(k)[22..] == k.email && KeyText(other)[22..] == other.email;
    } else {
      assert KeyText(k)[19..] == k.ip && KeyText(other)[19..] == other.ip;
    }
  }

  /** `_get_throttle_keys` */
  function EmailKeyOf(email: string): Key {
    EmailKey(Text.Lower(Text.Strip(email)))
  }

  function IpKeyOf(ip: string): Key {
    IpKey(if Text.Strip(ip) == "" then "unknown" else Text.Strip(ip))
  }

  /** The cache entry of an e-mail address: spellings that differ in case or in outer blanks share one. */
  lemma EmailSlot(email: string, other: string)
    ensures KeyText(EmailKeyOf(email)) == "account-request:email:" + Text.Lower(Text.Strip(email))
    ensures KeyText(EmailKeyOf(email)) == KeyText(EmailKeyOf(other))
      <==> Text.Lower(Text.Strip(email)) == Text.Lower(Text.Strip(other))
  {
    if KeyText(EmailKeyOf(email)) == KeyText(EmailKeyOf(other)) { KeysDiffer(EmailKeyOf(email), EmailKeyOf(other)); }
  }

  /** Requests without an address share one entry. */
  lemma IpSlot(ip: string, other: string)
    ensures KeyText(IpKeyOf(ip))
      == "account-request:ip:" + if Text.Strip(ip) == "" then "unknown" else Text.Strip(ip)
    ensures Text.Strip(ip) != "" && Text.Strip(other) != "" ==>
      (KeyText(IpKeyOf(ip)) == KeyText(IpKeyOf(other)) <==> Text.Strip(ip) == Text.Strip(other))
  {
    if KeyText(IpKeyOf(ip)) == KeyText(IpKeyOf(other)) { KeysDiffer(IpKeyOf(ip), IpKeyOf(other)); }
  }

  // ---------------------------------------------------------------- one request alone

  class Cache {
    var keys: set<Key>

    constructor ()
      ensures keys == {}
    {
      keys := {};
    }

    /** `cache.add` */
    method Add(k: Key) returns (added: bool)
      modifies this
      ensures added <==> k !in old(keys)
      ensures keys == old(keys) + {k}
    {
      added := k !in keys;
      keys := keys + {k};
    }

    /** `cache.delete` */
    method Delete(k: Key)
      modifies this
      ensures keys == old(keys) - {k}
    {
      keys := keys - {k};
    }

    /** `_reserve_throttle_slot`, undisturbed */
    method Reserve(email: string, ip: string, timeout: int) returns (reserved: bool)
      modifies this
      ensures timeout <= 0 ==> reserved && keys == old(keys)
      ensures timeout > 0 ==>
        var e, i := EmailKeyOf(email), IpKeyOf(ip);
        && (reserved <==> e !in old(keys) && i !in old(keys))
        && keys == if reserved then old(keys) + {e, i} else old(keys)
    {
      if timeout <= 0 { return true; }
      var emailKey, ipKey := EmailKeyOf(email), IpKeyOf(ip);
      var emailReserved := Add(emailKey);
      var ipReserved := Add(ipKey);
      if emailReserved && ipReserved { return true; }
      if emailReserved && !ipReserved { Delete(emailKey); }
      if ipReserved && !emailReserved { Delete(ipKey); }
      reserved := false;
    }

    /** `_release_throttle_slot` */
    method Release(email: string, ip: string, timeout: int)
      modifies this
      ensures keys == if timeout <= 0 then old(keys) else old(keys) - {EmailKeyOf(email), IpKeyOf(ip)}
    {
      if timeout <= 0 { return; }
      Delete(EmailKeyOf(email));
      Delete(IpKeyOf(ip));
    }
  }

  // ---------------------------------------------------------------- requests that interleave

  /** How far a request has come. */
  datatype Phase =
    | Begun
    | EmailTried(gotEmail: bool)
    | Reserved                      // both keys added: the request goes on
    | UndoEmail                     // the e-mail key was added, the other was not
    | UndoIp
    | Refused
    | HalfReleased                  // the request failed later: the e-mail key is deleted, the other not yet
    | Released

  datatype Request = Request(email: Key, ip: Key, phase: Phase)

  datatype State = State(cache: set<Key>, requests: map<Id, Request>)

  datatype Step =
    | Arrive(r: Id, email: string, ip: string)
    | TryEmail(r: Id)
    | TryIp(r: Id)
    | Undo(r: Id)
    | ReleaseEmail(r: Id)
    | ReleaseIp(r: Id)

  predicate Enabled(s: State, step: Step) {
    match step
    case Arrive(r, _, _) => r !in s.requests
    case TryEmail(r) => r in s.requests && s.requests[r].phase.Begun?
    case TryIp(r) => r in s.requests && s.requests[r].phase.EmailTried?
    case Undo(r) => r in s.requests && (s.requests[r].phase.UndoEmail? || s.requests[r].phase.UndoIp?)
    case ReleaseEmail(r) => r in s.requests && s.requests[r].phase.Reserved?
    case ReleaseIp(r) => r in s.requests && s.requests[r].phase.HalfReleased?
  }

  function AfterIp(gotEmail: bool, gotIp: bool): Phase {
    if gotEmail && gotIp then Reserved
    else if gotEmail then UndoEmail
    else if gotIp then UndoIp
    else Refused
  }

  function After(s: State, step: Step): State
    requires Enabled(s, step)
  {
    match step
    case Arrive(r, email, ip) => s.(requests := s.requests[r := Request(EmailKeyOf(email), IpKeyOf(ip), Begun)])
    case TryEmail(r) =>
      var q := s.requests[r];
      State(s.cache + {q.email}, s.requests[r := q.(phase := EmailTried(q.email !in s.cache))])
    case TryIp(r) =>
      var q := s.requests[r];
      State(s.cache + {q.ip}, s.requests[r := q.(phase := AfterIp(q.phase.gotEmail, q.ip !in s.cache))])
    case Undo(r) =>
      var q := s.requests[r];
      State(s.cache - {if q.phase.UndoEmail? then q.email else q.ip}, s.requests[r := q.(phase := Refused)])
    case ReleaseEmail(r) =>
      var q := s.requests[r];
      State(s.cache - {q.email}, s.requests[r := q.(phase := HalfReleased)])
    case ReleaseIp(r) =>
      var q := s.requests[r];
      State(s.cache - {q.ip}, s.requests[r := q.(phase := Released)])
  }

  predicate Path(s: State, steps: seq<Step>)
    decreases |steps|
  {
    steps != [] ==> Enabled(s, steps[0]) && Path(After(s, steps[0]), steps[1..])
  }

  function Final(s: State, steps: seq<Step>): State
    requires Path(s, steps)
    decreases |steps|
  {
    if steps == [] then s else Final(After(s, steps[0]), steps[1..])
  }

  /** The request added the key and has not deleted it. */
  predicate Owns(q: Request, k: Key) {
    || (k == q.email && (q.phase == EmailTried(true) || q.phase.Reserved? || q.phase.UndoEmail?))
    || (k == q.ip && (q.phase.Reserved? || q.phase.UndoIp? || q.phase.HalfReleased?))
  }

  ghost predicate Owner(s: State, r: Id, k: Key) {
    r in s.requests && Owns(s.requests[r], k)
  }

  /** The cache holds exactly the keys that somebody owns, and each key has one owner. */
  ghost predicate Ordered(s: State) {
    && (forall r, k :: Owner(s, r, k) ==> k in s.cache)
    && (forall k :: k in s.cache ==> exists r :: Owner(s, r, k))
    && (forall r, q, k :: Owner(s, r, k) && Owner(s, q, k) ==> r == q)
    && (forall r :: r in s.requests ==> s.requests[r].email.EmailKey? && s.requests[r].ip.IpKey?)
  }

  /** A request that nobody interrupts does what `Cache.Reserve` does: it ends with both keys if both were free, and
      otherwise it ends refused and the cache is as it was. */
  lemma AloneReserves(s: State, r: Id, email: string, ip: string) returns (steps: seq<Step>)
    requires r !in s.requests
    ensures Path(s, steps) && r in Final(s, steps).requests
    ensures forall other :: other != r && other in s.requests ==>
      other in Final(s, steps).requests && Final(s, steps).requests[other] == s.requests[other]
    ensures var e, i, after := EmailKeyOf(email), IpKeyOf(ip), Final(s, steps);
      && (after.requests[r].phase.Reserved? <==> e !in s.cache && i !in s.cache)
      && (!after.requests[r].phase.Reserved? ==> after.requests[r].phase.Refused?)
      && after.cache == if after.requests[r].phase.Reserved? then s.cache + {e, i} else s.cache
  {
    var s1 := After(s, Arrive(r, email, ip));
    var s2 := After(s1, TryEmail(r));
    var s3 := After(s2, TryIp(r));
    var phase := s3.requests[r].phase;
    steps := [];
    if phase.UndoEmail? || phase.UndoIp? { steps := StepFirst(s3, Undo(r), steps); }
    steps := StepFirst(s2, TryIp(r), steps);
    steps := StepFirst(s1, TryEmail(r), steps);
    steps := StepFirst(s, Arrive(r, email, ip), steps);
  }

  lemma StepFirst(s: State, step: Step, rest: seq<Step>) returns (steps: seq<Step>)
    requires Enabled(s, step) && Path(After(s, step), rest)
    ensures steps == [step] + rest && Path(s, steps) && Final(s, steps) == Final(After(s, step), rest)
  {
    steps := [step] + rest;
    assert steps[1..] == rest;
  }

  function Actor(step: Step): Id {
    step.r
  }

  /** What one step does to ownership: only the acting request gains or loses, and it gains only a free key. */
  lemma Ownership(s: State, step: Step, r: Id, k: Key)
    requires Ordered(s) && Enabled(s, step)
    ensures r != Actor(step) ==> (Owner(After(s, step), r, k) <==> Owner(s, r, k))
    ensures r == Actor(step) && Owner(After(s, step), r, k) ==>
      k in After(s, step).cache && (Owner(s, r, k) || k !in s.cache)
    ensures r == Actor(step) && Owner(s, r, k) && !Owner(After(s, step), r, k) ==> k !in After(s, step).cache
  {
    assert r in s.requests ==> s.requests[r].email != s.requests[r].ip;
    assert Owner(s, r, k) ==> k in s.cache;
    match step
    case Arrive(_, _, _) =>
    case TryEmail(_) =>
    case TryIp(_) =>
    case _ =>
  }

  /** A key that enters the cache belongs to the acting request; a key that leaves it belonged to it. */
  lemma OnlyOwnersDelete(s: State, step: Step, k: Key)
    requires Ordered(s) && Enabled(s, step)
    ensures k in s.cache && k !in After(s, step).cache ==> Owner(s, Actor(step), k)
    ensures k !in s.cache && k in After(s, step).cache ==> Owner(After(s, step), Actor(step), k)
  {
  }

  lemma StepKeepsOrder(s: State, step: Step)
    requires Ordered(s) && Enabled(s, step)
    ensures Ordered(After(s, step))
  {
    var s' := After(s, step);
    forall r, k ensures Owner(s', r, k) ==> k in s'.cache {
      Ownership(s, step, r, k);
      OnlyOwnersDelete(s, step, k);
    }
    forall k | k in s'.cache ensures exists r :: Owner(s', r, k) {
      OnlyOwnersDelete(s, step, k);
      if k in s.cache {
        var r :| Owner(s, r, k);
        Ownership(s, step, r, k);
        assert Owner(s', r, k);
      }
    }
    forall r, q, k | Owner(s', r, k) && Owner(s', q, k) ensures r == q {
      Ownership(s, step, r, k);
      Ownership(s, step, q, k);
    }
  }

  const IDLE := State({}, map[])

  /** For any interleaving: each key has at most one owner, only owners delete, and a refused request leaves nothing
      behind, since every key in the cache belongs to somebody who is not refused. */
  lemma {:induction false} ReservationsStayOrdered(s: State, steps: seq<Step>)
    requires Ordered(s) && Path(s, steps)
    ensures Ordered(Final(s, steps))
    decreases |steps|
  {
    if steps != [] {
      StepKeepsOrder(s, steps[0]);
      ReservationsStayOrdered(After(s, steps[0]), steps[1..]);
    }
  }

  lemma IdleIsOrdered()
    ensures Ordered(IDLE)
  {
  }

  /** From the empty cache: whatever requests do, each key in the cache has its one owner among them, and once all of
      them are refused or released nothing is left. */
  lemma CacheStaysOrdered(steps: seq<Step>)
    requires Path(IDLE, steps)
    ensures var s := Final(IDLE, steps);
      && (forall k :: k in s.cache <==> exists r :: Owner(s, r, k))
      && (forall r, q, k :: Owner(s, r, k) && Owner(s, q, k) ==> r == q)
      && ((forall r :: r in s.requests ==> Over(s.requests[r])) ==> s.cache == {})
  {
    IdleIsOrdered();
    ReservationsStayOrdered(IDLE, steps);
    var s := Final(IDLE, steps);
    if forall r :: r in s.requests ==> Over(s.requests[r]) { NothingLeftBehind(s); }
  }

  /** The request has nothing more to do. */
  predicate Over(q: Request) {
    q.phase.Refused? || q.phase.Released?
  }

  /** When every request is refused or released the cache is empty again. */
  lemma NothingLeftBehind(s: State)
    requires Ordered(s) && forall r :: r in s.requests ==> Over(s.requests[r])
    ensures s.cache == {}
  {
  }

  /** Two reserved requests differ in both keys. */
  lemma ReservedDiffer(s: State, r: Id, q: Id)
    requires Ordered(s) && r in s.requests && q in s.requests && r != q
    requires s.requests[r].phase.Reserved? && s.requests[q].phase.Reserved?
    ensures s.requests[r].email != s.requests[q].email && s.requests[r].ip != s.requests[q].ip
  {
    assert Owner(s, r, s.requests[r].email) && Owner(s, q, s.requests[q].email);
    assert Owner(s, r, s.requests[r].ip) && Owner(s, q, s.requests[q].ip);
  }

  // ---------------------------------------------------------------- two requests for one slot

  /** Requests `r` and `q` want the same two keys, and nobody else still at work wants either. */
  ghost predicate Rivals(s: State, r: Id, q: Id) {
    && r != q && r in s.requests && q in s.requests
    && s.requests[r].email == s.requests[q].email && s.requests[r].ip == s.requests[q].ip
    && (forall x :: x in s.requests && x != r && x != q && !Over(s.requests[x]) ==>
          s.requests[x].email != s.requests[r].email && s.requests[x].ip != s.requests[r].ip)
  }

  /** Nobody arrives for the two keys, and neither rival releases them; everything else may happen. */
  ghost predicate RaceStep(s: State, step: Step, r: Id, q: Id)
    requires r in s.requests
  {
    && (step.Arrive? ==> EmailKeyOf(step.email) != s.requests[r].email && IpKeyOf(step.ip) != s.requests[r].ip)
    && (step.ReleaseEmail? || step.ReleaseIp? ==> step.r != r && step.r != q)
  }

  ghost predicate RacePath(s: State, steps: seq<Step>, r: Id, q: Id)
    decreases |steps|
  {
    && r in s.requests
    && (steps != [] ==>
          Enabled(s, steps[0]) && RaceStep(s, steps[0], r, q) && RacePath(After(s, steps[0]), steps[1..], r, q))
  }

  /** A rival that added the e-mail key tries the other key while its opponent, which added that one, has not deleted
      it yet. */
  predicate Cross(s: State, step: Step, r: Id, q: Id)
    requires r in s.requests && q in s.requests
  {
    && step.TryIp? && (step.r == r || step.r == q)
    && s.requests[step.r].phase == EmailTried(true)
    && s.requests[if step.r == r then q else r].phase.UndoIp?
  }

  /** The rivals cross somewhere on the path. */
  ghost predicate Crosses(s: State, steps: seq<Step>, r: Id, q: Id)
    requires r in s.requests && q in s.requests && Path(s, steps)
    decreases |steps|
  {
    steps != [] && (Cross(s, steps[0], r, q) || Crosses(After(s, steps[0]), steps[1..], r, q))
  }

  /** Nothing is lost yet: `a` is first, or nobody has begun. */
  predicate Ahead(a: Phase, b: Phase) {
    || (a.Begun? && b.Begun?)
    || (a == EmailTried(true) && (b.Begun? || b == EmailTried(false) || b.UndoIp? || b.Refused?))
    || (a.Reserved? && (b.Begun? || b == EmailTried(false) || b.Refused?))
  }

  /** The rivals have crossed: both are on the way out. */
  predicate Lost(a: Phase, b: Phase) {
    (a.UndoEmail? || a.Refused?) && (b.UndoIp? || b.Refused?)
  }

  ghost predicate OneAhead(s: State, r: Id, q: Id)
    requires r in s.requests && q in s.requests
  {
    Ahead(s.requests[r].phase, s.requests[q].phase) || Ahead(s.requests[q].phase, s.requests[r].phase)
  }

  ghost predicate BothLost(s: State, r: Id, q: Id)
    requires r in s.requests && q in s.requests
  {
    Lost(s.requests[r].phase, s.requests[q].phase) || Lost(s.requests[q].phase, s.requests[r].phase)
  }

  /** Only a rival can hold one of the two keys. */
  lemma RivalsOwn(s: State, r: Id, q: Id)
    requires Ordered(s) && Rivals(s, r, q)
    ensures s.requests[r].email in s.cache <==>
      Owns(s.requests[r], s.requests[r].email) || Owns(s.requests[q], s.requests[r].email)
    ensures s.requests[r].ip in s.cache <==>
      Owns(s.requests[r], s.requests[r].ip) || Owns(s.requests[q], s.requests[r].ip)
  {
    assert Owner(s, r, s.requests[r].email) <==> Owns(s.requests[r], s.requests[r].email);
    assert Owner(s, q, s.requests[r].email) <==> Owns(s.requests[q], s.requests[r].email);
    assert Owner(s, r, s.requests[r].ip) <==> Owns(s.requests[r], s.requests[r].ip);
    assert Owner(s, q, s.requests[r].ip) <==> Owns(s.requests[q], s.requests[r].ip);
  }

  lemma RivalsStay(s: State, step: Step, r: Id, q: Id)
    requires Ordered(s) && Rivals(s, r, q) && Enabled(s, step) && RaceStep(s, step, r, q)
    ensures Ordered(After(s, step)) && Rivals(After(s, step), r, q)
  {
    StepKeepsOrder(s, step);
  }

  /** One rival stays ahead until the two cross; after that both are lost. */
  lemma RaceMoves(s: State, step: Step, r: Id, q: Id)
    requires Ordered(s) && Rivals(s, r, q) && Enabled(s, step) && RaceStep(s, step, r, q)
    ensures r in After(s, step).requests && q in After(s, step).requests
    ensures OneAhead(s, r, q) ==>
      if Cross(s, step, r, q) then BothLost(After(s, step), r, q) else OneAhead(After(s, step), r, q)
    ensures BothLost(s, r, q) ==> BothLost(After(s, step), r, q) && !Cross(s, step, r, q)
  {
    RivalsOwn(s, r, q);
  }

  lemma {:induction false} RaceRuns(s: State, steps: seq<Step>, r: Id, q: Id)
    requires Ordered(s) && Rivals(s, r, q) && RacePath(s, steps, r, q)
    requires OneAhead(s, r, q) || BothLost(s, r, q)
    ensures Path(s, steps) && r in Final(s, steps).requests && q in Final(s, steps).requests
    ensures OneAhead(s, r, q) && !BothLost(s, r, q) ==>
      if Crosses(s, steps, r, q) then BothLost(Final(s, steps), r, q) else OneAhead(Final(s, steps), r, q)
    ensures BothLost(s, r, q) ==> BothLost(Final(s, steps), r, q)
    decreases |steps|
  {
    if steps != [] {
      var s' := After(s, steps[0]);
      RivalsStay(s, steps[0], r, q);
      RaceMoves(s, steps[0], r, q);
      RaceRuns(s', steps[1..], r, q);
    }
  }

  /** Two requests for one free slot, among any others: once both are decided, either exactly one has the slot, or the
      two have crossed and nobody has it. */
  lemma RaceDecided(s: State, steps: seq<Step>, r: Id, q: Id)
    requires Ordered(s) && Rivals(s, r, q) && s.requests[r].phase.Begun? && s.requests[q].phase.Begun?
    requires RacePath(s, steps, r, q)
    ensures Path(s, steps) && r in Final(s, steps).requests && q in Final(s, steps).requests
    ensures
      var a, b := Final(s, steps).requests[r].phase, Final(s, steps).requests[q].phase;
      (a.Reserved? || a.Refused?) && (b.Reserved? || b.Refused?) ==>
        if Crosses(s, steps, r, q) then a.Refused? && b.Refused? else a.Reserved? != b.Reserved?
  {
    RaceRuns(s, steps, r, q);
  }

  /** Two requests for one slot of the empty cache, as they are when both have arrived. */
  function TwoArrived(email: string, ip: string): State {
    var q := Request(EmailKeyOf(email), IpKeyOf(ip), Begun);
    State({}, map[1 := q, 2 := q])
  }

  lemma ArrivedRivals(email: string, ip: string)
    ensures var s := TwoArrived(email, ip);
      && Ordered(s) && Rivals(s, 1, 2) && s.requests[1].phase.Begun? && s.requests[2].phase.Begun?
      && Enabled(IDLE, Arrive(1, email, ip))
      && var once := After(IDLE, Arrive(1, email, ip));
         Enabled(once, Arrive(2, email, ip)) && After(once, Arrive(2, email, ip)) == s
  {
  }

  lemma Prepend(s: State, step: Step, rest: seq<Step>, r: Id, q: Id) returns (steps: seq<Step>)
    requires Enabled(s, step) && r in s.requests && q in s.requests && RaceStep(s, step, r, q)
    requires RacePath(After(s, step), rest, r, q) && Path(After(s, step), rest)
    ensures steps == [step] + rest && RacePath(s, steps, r, q) && Path(s, steps)
    ensures Final(s, steps) == Final(After(s, step), rest)
    ensures Crosses(s, steps, r, q) <==> Cross(s, step, r, q) || Crosses(After(s, step), rest, r, q)
  {
    steps := [step] + rest;
    assert steps[0] == step && steps[1..] == rest;
  }

  /** Two requests for one free slot, and no others, may both be refused: each takes one of the keys. */
  lemma BothMayFail(email: string, ip: string) returns (steps: seq<Step>)
    ensures var s := TwoArrived(email, ip);
      && Ordered(s) && Rivals(s, 1, 2) && RacePath(s, steps, 1, 2) && Path(s, steps) && Crosses(s, steps, 1, 2)
      && 1 in Final(s, steps).requests && 2 in Final(s, steps).requests
      && var a, b := Final(s, steps).requests[1], Final(s, steps).requests[2];
         a.phase.Refused? && b.phase.Refused?
  {
    ArrivedRivals(email, ip);
    var s0 := TwoArrived(email, ip);
    var s1 := After(s0, TryEmail(1));
    var s2 := After(s1, TryEmail(2));
    var s3 := After(s2, TryIp(2));
    var s4 := After(s3, TryIp(1));
    var s5 := After(s4, Undo(1));
    steps := Prepend(s5, Undo(2), [], 1, 2);
    steps := Prepend(s4, Undo(1), steps, 1, 2);
    steps := Prepend(s3, TryIp(1), steps, 1, 2);
    steps := Prepend(s2, TryIp(2), steps, 1, 2);
    steps := Prepend(s1, TryEmail(2), steps, 1, 2);
    steps := Prepend(s0, TryEmail(1), steps, 1, 2);
  }

  /** A loser that cleans up in time leaves the slot to the winner, although it tried the second key first. */
  lemma EarlyUndoLeavesWinner(email: string, ip: string) returns (steps: seq<Step>)
    ensures steps == [TryEmail(1), TryEmail(2), TryIp(2), Undo(2), TryIp(1)]
    ensures var s := TwoArrived(email, ip);
      && Ordered(s) && Rivals(s, 1, 2) && RacePath(s, steps, 1, 2) && Path(s, steps) && !Crosses(s, steps, 1, 2)
      && 1 in Final(s, steps).requests && 2 in Final(s, steps).requests
      && var a, b := Final(s, steps).requests[1], Final(s, steps).requests[2];
         a.phase.Reserved? && b.phase.Refused?
  {
    ArrivedRivals(email, ip);
    var s0 := TwoArrived(email, ip);
    var s1 := After(s0, TryEmail(1));
    var s2 := After(s1, TryEmail(2));
    var s3 := After(s2, TryIp(2));
    var s4 := After(s3, Undo(2));
    steps := Prepend(s4, TryIp(1), [], 1, 2);
    steps := Prepend(s3, Undo(2), steps, 1, 2);
    steps := Prepend(s2, TryIp(2), steps, 1, 2);
    steps := Prepend(s1, TryEmail(2), steps, 1, 2);
    steps := Prepend(s0, TryEmail(1), steps, 1, 2);
  }
}
