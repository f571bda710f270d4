/** Merging the authorizations of two links or of two recipient contacts, and exactly when the models' constraints
    refuse that (wms/admin_contacts_merge_service.py). */
module AuthorizationMerge {
  import opened Ids
  import opened RegistryTables
  import opened RegistrySteps
  import opened RegistryWrites
  import opened LinkJoin

  // ---------------------------------------------------------------- two active defaults

  /** An active authorization of the source link that comes before `a` and is folded into `e`. */
  ghost predicate ActivatesBefore(auths: map<Id, Authorization>, b: Id, e: Id, a: Id, source: Id) {
    && b in auths && b < a && auths[b].link == source && auths[b].active
    && e in auths && auths[b].recipientContact == auths[e].recipientContact
  }

  /** The default of the target link is active by the time `a` is reached. */
  ghost predicate ActiveByThen(auths: map<Id, Authorization>, e: Id, a: Id, source: Id, target: Id) {
    && e in auths && auths[e].link == target && auths[e].isDefault
    && (auths[e].active || exists b :: ActivatesBefore(auths, b, e, a, source))
  }

  /** An active default of the source link has to take a new slot on the target link, whose default is active by
      then. */
  ghost predicate Blocked(auths: map<Id, Authorization>, a: Id, source: Id, target: Id) {
    && ActiveDefault(auths, a, source) && source != target
    && SlotFree(auths, target, auths[a].recipientContact)
    && exists e :: ActiveByThen(auths, e, a, source, target)
  }

  /** The contacts of the source link would be contacts of the target link's organization. */
  ghost predicate LinkFits(t: Tables, auths: map<Id, Authorization>, source: Id, target: Id) {
    forall a :: a in auths && auths[a].link == source ==> FitsAt(t, target, auths[a].recipientContact)
  }

  /** Why joining links was refused, by a validation that only knows the constraints. Where all contacts fit it does
      not ignore defaults; if it enforces the constraint on them, a row was blocked. Folded like `Coherent`. */
  ghost predicate DefaultsExplain(rules: Rules, fits: bool, blocked: bool) {
    forall u :: Unfold(u) ==>
      OnlyConstraints(rules) ==>
        && (fits ==> !IgnoresDefaults(rules))
        && ((fits || IgnoresContacts(rules)) && OneActiveDefault(rules) ==> blocked)
  }

  lemma OtherReason(rules: Rules)
    requires !OnlyConstraints(rules)
    ensures forall fits, blocked :: DefaultsExplain(rules, fits, blocked)
  {
  }

  lemma ExplainedBy(rules: Rules, fits: bool, blocked: bool, fits': bool, blocked': bool)
    requires DefaultsExplain(rules, fits, blocked) && (fits' ==> fits)
    requires OneActiveDefault(rules) && blocked ==> blocked'
    ensures DefaultsExplain(rules, fits', blocked')
  {
    assert Unfold(0);
  }

  lemma FitsAlike(t: Tables, t': Tables, auths: map<Id, Authorization>, source: Id, target: Id)
    requires t'.links == t.links && t'.recipients == t.recipients
    ensures LinkFits(t, auths, source, target) <==> LinkFits(t', auths, source, target)
  {
  }

  /** The blocked rows are blocked until they are reached. Folded like `Coherent`. */
  ghost predicate StillBlocked(
    fetched: map<Id, Authorization>, auths: map<Id, Authorization>, ids: seq<Id>, source: Id, target: Id)
  {
    forall u :: Unfold(u) ==>
      forall a :: Blocked(fetched, a, source, target) <==> a in ids && Blocked(auths, a, source, target)
  }

  lemma StillBlockedAtFirst(auths: map<Id, Authorization>, ids: seq<Id>, source: Id, target: Id)
    requires forall a :: a in auths && auths[a].link == source ==> a in ids
    ensures StillBlocked(auths, auths, ids, source, target)
  {
  }

  lemma StillBlockedNone(fetched: map<Id, Authorization>, auths: map<Id, Authorization>, source: Id, target: Id)
    requires StillBlocked(fetched, auths, [], source, target)
    ensures forall a :: !Blocked(fetched, a, source, target)
  {
    assert Unfold(0);
  }

  lemma StillBlockedSome(
    fetched: map<Id, Authorization>, auths: map<Id, Authorization>, ids: seq<Id>, source: Id, target: Id)
    requires StillBlocked(fetched, auths, ids, source, target) && ids != [] && Blocked(auths, ids[0], source, target)
    ensures Blocked(fetched, ids[0], source, target)
  {
    assert Unfold(0);
  }

  /** The first row of the source link is blocked exactly when its save would make a second active default. */
  lemma FirstIsBlocked(
    fetched: map<Id, Authorization>, auths: map<Id, Authorization>, ids: seq<Id>, source: Id, target: Id)
    requires Awaiting(fetched, auths, ids, LinkOf, source) && ids != [] && source != target
    requires ids[0] in auths && auths[ids[0]].link == source
    ensures Blocked(auths, ids[0], source, target)
      <==> SlotFree(auths, target, auths[ids[0]].recipientContact) && SecondDefault(auths, ids[0], target)
  {
    assert Unfold(0);
    var a := ids[0];
    forall b, e ensures !ActivatesBefore(auths, b, e, a, source) {
      if b in ids {
        assert b >= a;
      }
    }
    if e :| e != a && ActiveDefault(auths, e, target) {
      assert ActiveByThen(auths, e, a, source, target);
    }
    if e :| ActiveByThen(auths, e, a, source, target) {
      assert e != a && ActiveDefault(auths, e, target);
    }
  }

  /** A refused round is explained by the row it met. */
  lemma FoldExplained(
    t: Tables, rules: Rules, fetched: map<Id, Authorization>, ids: seq<Id>, source: Id, target: Id)
    requires Awaiting(fetched, t.authorizations, ids, LinkOf, source) && ids != [] && source != target
    requires ids[0] in fetched && fetched[ids[0]].link == source
    requires RefusedFold(t, rules, ids[0], target, fetched[ids[0]].recipientContact)
    requires OneActiveDefault(rules) ==> StillBlocked(fetched, t.authorizations, ids, source, target)
    ensures DefaultsExplain(rules, LinkFits(t, fetched, source, target),
                            exists a :: Blocked(fetched, a, source, target))
  {
    AwaitingNext(fetched, t.authorizations, ids, LinkOf, source);
    FirstIsBlocked(fetched, t.authorizations, ids, source, target);
    if OneActiveDefault(rules) && Blocked(t.authorizations, ids[0], source, target) {
      StillBlockedSome(fetched, t.authorizations, ids, source, target);
    }
  }

  /** A row that is not blocked leaves the others blocked or unblocked as they were. */
  lemma StillBlockedStep(
    fetched: map<Id, Authorization>, auths: map<Id, Authorization>, after: map<Id, Authorization>,
    ids: seq<Id>, rest: seq<Id>, source: Id, target: Id)
    requires StillBlocked(fetched, auths, ids, source, target) && Awaiting(fetched, auths, ids, LinkOf, source)
    requires ids != [] && rest == ids[1..] && source != target
    requires UniqueAuthorizations(auths) && OneDefaultPerLink(auths)
    requires ids[0] in auths && auths[ids[0]].link == source && !Blocked(auths, ids[0], source, target)
    requires Folded(auths, after, ids[0], target, auths[ids[0]].recipientContact)
    ensures StillBlocked(fetched, after, rest, source, target)
  {
    assert Unfold(0);
    var x := ids[0];
    forall a
      ensures Blocked(fetched, a, source, target) <==> a in rest && Blocked(after, a, source, target)
    {
      if a in rest {
        assert a in ids && a > x;
        assert a in auths && auths[a].link == source && !SameSlot(auths, a, x);
        if auths[x].isDefault {
          DefaultUnblocks(auths, after, x, a, source, target);
        } else {
          FoldedLeavesBlocked(auths, after, x, a, source, target);
        }
      } else {
        assert a in ids ==> a == x;
      }
    }
  }

  /** The source link has one default, so once that is placed nothing else is blocked. */
  lemma DefaultUnblocks(
    auths: map<Id, Authorization>, after: map<Id, Authorization>, x: Id, a: Id, source: Id, target: Id)
    requires OneDefaultPerLink(auths) && x in auths && auths[x].link == source && auths[x].isDefault
    requires a in auths && auths[a].link == source && a != x && source != target
    requires Folded(auths, after, x, target, auths[x].recipientContact)
    ensures !Blocked(auths, a, source, target) && !Blocked(after, a, source, target)
  {
    assert Unfold(0);
    assert !BothDefault(auths, a, x);
  }

  lemma FoldedLeavesBlocked(
    auths: map<Id, Authorization>, after: map<Id, Authorization>, x: Id, a: Id, source: Id, target: Id)
    requires UniqueAuthorizations(auths) && source != target
    requires x in auths && auths[x].link == source && !auths[x].isDefault && x < a
    requires a in auths && auths[a].link == source && auths[a].recipientContact != auths[x].recipientContact
    requires Folded(auths, after, x, target, auths[x].recipientContact)
    ensures Blocked(auths, a, source, target) <==> Blocked(after, a, source, target)
  {
    assert Unfold(0);
    if SlotFree(auths, target, auths[x].recipientContact) {
      MovedLeavesBlocked(auths, after, x, a, source, target);
    } else {
      var h :| Holds(auths, x, h, target, auths[x].recipientContact) && after == Absorbed(auths, x, h);
      AbsorbedLeavesBlocked(auths, after, x, h, a, source, target);
    }
  }

  lemma MovedLeavesBlocked(
    auths: map<Id, Authorization>, after: map<Id, Authorization>, x: Id, a: Id, source: Id, target: Id)
    requires source != target && x in auths && auths[x].link == source && !auths[x].isDefault
    requires a in auths && auths[a].link == source && auths[a].recipientContact != auths[x].recipientContact
    requires SlotFree(auths, target, auths[x].recipientContact) && after == auths[x := auths[x].(link := target)]
    ensures Blocked(auths, a, source, target) <==> Blocked(after, a, source, target)
  {
    forall e
      ensures ActiveByThen(auths, e, a, source, target) <==> ActiveByThen(after, e, a, source, target)
    {
      if b :| ActivatesBefore(auths, b, e, a, source) && ActiveByThen(auths, e, a, source, target) {
        assert b != x && ActivatesBefore(after, b, e, a, source);
      }
      if b :| ActivatesBefore(after, b, e, a, source) && e != x {
        assert ActivatesBefore(auths, b, e, a, source);
      }
    }
    assert SlotFree(auths, target, auths[a].recipientContact) <==>
      SlotFree(after, target, auths[a].recipientContact) by {
      assert forall y :: y in auths && y != x ==> after[y] == auths[y];
    }
  }

  lemma AbsorbedLeavesBlocked(
    auths: map<Id, Authorization>, after: map<Id, Authorization>, x: Id, h: Id, a: Id, source: Id, target: Id)
    requires UniqueAuthorizations(auths) && source != target && x in auths && auths[x].link == source
    requires !auths[x].isDefault
    requires x < a && a in auths && auths[a].link == source && auths[a].recipientContact != auths[x].recipientContact
    requires Holds(auths, x, h, target, auths[x].recipientContact) && after == Absorbed(auths, x, h)
    ensures Blocked(auths, a, source, target) <==> Blocked(after, a, source, target)
  {
    assert after == auths[h := auths[h].(active := auths[h].active || auths[x].active)] - {x};
    forall e
      ensures ActiveByThen(auths, e, a, source, target) <==> ActiveByThen(after, e, a, source, target)
    {
      if e in auths && auths[e].link == target {
        AbsorbedActivates(auths, after, x, h, e, a, source, target);
      }
    }
    assert SlotFree(auths, target, auths[a].recipientContact) <==>
      SlotFree(after, target, auths[a].recipientContact) by {
      assert forall y :: y in after ==>
        after[y].link == auths[y].link && after[y].recipientContact == auths[y].recipientContact;
      assert forall y :: y in auths && auths[y].link == target ==> y in after;
    }
  }

  /** What the folded row would have activated is active now. */
  lemma AbsorbedActivates(
    auths: map<Id, Authorization>, after: map<Id, Authorization>, x: Id, h: Id, e: Id, a: Id, source: Id, target: Id)
    requires UniqueAuthorizations(auths) && source != target && x in auths && auths[x].link == source
    requires x < a && e in auths && auths[e].link == target
    requires Holds(auths, x, h, target, auths[x].recipientContact)
    requires after == auths[h := auths[h].(active := auths[h].active || auths[x].active)] - {x}
    ensures ActiveByThen(auths, e, a, source, target) <==> ActiveByThen(after, e, a, source, target)
  {
    assert SameSlot(auths, e, h) ==> e == h;
    if b :| ActivatesBefore(auths, b, e, a, source) {
      if b == x { assert e == h; } else { assert ActivatesBefore(after, b, e, a, source); }
    }
    if b :| ActivatesBefore(after, b, e, a, source) {
      assert ActivatesBefore(auths, b, e, a, source);
    }
    if e == h && auths[x].active {
      assert ActivatesBefore(auths, x, e, a, source);
    }
  }

  // ---------------------------------------------------------------- contacts of another organization

  /** An authorization of the source contact has to take a new slot for the target contact on a link of another
      organization. */
  ghost predicate Stranded(t: Tables, a: Id, source: Id, target: Id) {
    && a in t.authorizations && t.authorizations[a].recipientContact == source
    && !FitsAt(t, t.authorizations[a].link, target) && SlotFree(t.authorizations, t.authorizations[a].link, target)
  }

  /** The target's own authorizations are on links of its organization. */
  ghost predicate TargetFits(t: Tables, target: Id) {
    forall e :: e in t.authorizations && t.authorizations[e].recipientContact == target ==>
      FitsAt(t, t.authorizations[e].link, target)
  }

  /** Slots that rows still to come need are free or taken as they were. Folded like `Coherent`. */
  ghost predicate SlotsKept(fetched: map<Id, Authorization>, auths: map<Id, Authorization>, ids: seq<Id>, target: Id) {
    forall u :: Unfold(u) ==>
      forall a :: a in ids && a in fetched ==>
        (SlotFree(fetched, fetched[a].link, target) <==> SlotFree(auths, fetched[a].link, target))
  }

  lemma SlotsKeptAtFirst(auths: map<Id, Authorization>, ids: seq<Id>, target: Id)
    ensures SlotsKept(auths, auths, ids, target)
  {
  }

  lemma SlotsKeptStep(
    fetched: map<Id, Authorization>, auths: map<Id, Authorization>, after: map<Id, Authorization>,
    ids: seq<Id>, rest: seq<Id>, source: Id, target: Id)
    requires SlotsKept(fetched, auths, ids, target) && Awaiting(fetched, auths, ids, RecipientOf, source)
    requires ids != [] && rest == ids[1..] && source != target && UniqueAuthorizations(auths) && ids[0] in auths
    requires auths[ids[0]].recipientContact == source && Folded(auths, after, ids[0], auths[ids[0]].link, target)
    ensures SlotsKept(fetched, after, rest, target)
  {
    assert Unfold(0);
    var x := ids[0];
    forall a | a in rest && a in fetched
      ensures SlotFree(fetched, fetched[a].link, target) <==> SlotFree(after, fetched[a].link, target)
    {
      assert a in ids && a > x && a in auths && auths[a] == fetched[a];
      assert !SameSlot(auths, a, x);
      OtherSlotKept(auths, after, x, auths[a].link, target);
    }
  }

  lemma OtherSlotKept(auths: map<Id, Authorization>, after: map<Id, Authorization>, x: Id, link: Id, target: Id)
    requires x in auths && auths[x].link != link && auths[x].recipientContact != target
    requires Folded(auths, after, x, auths[x].link, target)
    ensures SlotFree(auths, link, target) <==> SlotFree(after, link, target)
  {
    assert Unfold(0);
    assert forall y :: y in after ==>
      && y in auths
      && (y == x || (after[y].link == auths[y].link && after[y].recipientContact == auths[y].recipientContact));
    assert forall y :: y in auths && y != x ==> y in after;
  }

  /** The rows visited so far were not stranded. Folded like `Coherent`. */
  ghost predicate NoneStrandedYet(t: Tables, ids: seq<Id>, source: Id, target: Id) {
    forall u :: Unfold(u) ==> forall a :: Stranded(t, a, source, target) ==> a in ids
  }

  lemma NoneStrandedAtFirst(t: Tables, ids: seq<Id>, source: Id, target: Id)
    requires forall a :: a in t.authorizations && t.authorizations[a].recipientContact == source ==> a in ids
    ensures NoneStrandedYet(t, ids, source, target)
  {
  }

  lemma NoneStrandedStep(t: Tables, ids: seq<Id>, rest: seq<Id>, source: Id, target: Id)
    requires NoneStrandedYet(t, ids, source, target) && ids != [] && rest == ids[1..]
    requires !Stranded(t, ids[0], source, target)
    ensures NoneStrandedYet(t, rest, source, target)
  {
    assert Unfold(0);
  }

  lemma NoneStranded(t: Tables, source: Id, target: Id)
    requires NoneStrandedYet(t, [], source, target)
    ensures forall a :: !Stranded(t, a, source, target)
  {
    assert Unfold(0);
  }

  /** The first row to come is stranded exactly when its new slot is free and does not fit. */
  lemma FirstIsStranded(t: Tables, auths: map<Id, Authorization>, ids: seq<Id>, source: Id, target: Id)
    requires SlotsKept(t.authorizations, auths, ids, target) && ids != []
    requires ids[0] in t.authorizations && t.authorizations[ids[0]].recipientContact == source
    ensures Stranded(t, ids[0], source, target) <==>
      var l := t.authorizations[ids[0]].link;
      SlotFree(auths, l, target) && !FitsAt(t, l, target)
    ensures TargetFits(t, target) && !FitsAt(t, t.authorizations[ids[0]].link, target) ==>
      Stranded(t, ids[0], source, target)
  {
    assert Unfold(0);
    assert ids[0] in ids;
  }

  /** On its own link a default is not a second one. */
  lemma NoSecondBeside(auths: map<Id, Authorization>, a: Id)
    requires a in auths && OneDefaultPerLink(auths)
    ensures !SecondDefault(auths, a, auths[a].link)
  {
    if auths[a].isDefault {
      assert forall e :: ActiveDefault(auths, e, auths[a].link) ==> BothDefault(auths, a, e);
    }
  }

  // ---------------------------------------------------------------- rows still to be visited by a loop

  /** A loop over a query visits the rows it fetched. Those still to come are as fetched, and they are all that is
      left under the old key. Folded like `Coherent`. */
  ghost predicate Awaiting<Row>(fetched: map<Id, Row>, rows: map<Id, Row>, ids: seq<Id>, key: Row -> Id, source: Id) {
    forall u :: Unfold(u) ==>
      && Ascending(ids)
      && (forall k :: 0 <= k < |ids| ==>
            ids[k] in rows && ids[k] in fetched && rows[ids[k]] == fetched[ids[k]] && key(fetched[ids[k]]) == source)
      && (forall a :: a in rows && key(rows[a]) == source ==> a in ids)
  }

  lemma AwaitingAll<Row>(rows: map<Id, Row>, ids: seq<Id>, key: Row -> Id, source: Id)
    requires Ascending(ids) && (forall a :: a in ids <==> a in rows && key(rows[a]) == source)
    ensures Awaiting(rows, rows, ids, key, source)
  {
  }

  lemma AwaitingNext<Row>(fetched: map<Id, Row>, rows: map<Id, Row>, ids: seq<Id>, key: Row -> Id, source: Id)
    requires Awaiting(fetched, rows, ids, key, source) && ids != []
    ensures ids[0] in rows && ids[0] in fetched && rows[ids[0]] == fetched[ids[0]] && key(fetched[ids[0]]) == source
    ensures Ascending(ids)
  {
    assert Unfold(0);
  }

  lemma AwaitingNone<Row>(fetched: map<Id, Row>, rows: map<Id, Row>, key: Row -> Id, source: Id)
    requires Awaiting(fetched, rows, [], key, source)
    ensures forall a :: a in rows ==> key(rows[a]) != source
  {
    assert Unfold(0);
  }

  /** The first row left the query and no other row entered it or changed in it. */
  lemma AwaitingStep<Row>(
    fetched: map<Id, Row>, rows: map<Id, Row>, after: map<Id, Row>, ids: seq<Id>, rest: seq<Id>, key: Row -> Id,
    source: Id)
    requires Awaiting(fetched, rows, ids, key, source) && ids != [] && rest == ids[1..]
    requires ids[0] in after ==> key(after[ids[0]]) != source
    requires forall a :: a in after && key(after[a]) == source ==> a in rows && key(rows[a]) == source
    requires forall a :: a in rows && a != ids[0] && key(rows[a]) == source ==> a in after && after[a] == rows[a]
    ensures Awaiting(fetched, after, rest, key, source)
  {
    assert Unfold(0);
    forall k | 1 <= k < |ids|
      ensures ids[k] in after && after[ids[k]] == fetched[ids[k]]
    {
      assert ids[k] != ids[0];
    }
    forall a | a in after && key(after[a]) == source
      ensures a in ids[1..]
    {
      assert a != ids[0] && a in ids;
    }
  }

  function RecipientOf(a: Authorization): Id {
    a.recipientContact
  }

  function LinkOf(a: Authorization): Id {
    a.link
  }

  /** Moving an authorization off a recipient contact disturbs no other authorization of that contact. */
  lemma FoldedOffRecipient(auths: map<Id, Authorization>, after: map<Id, Authorization>, a: Id, link: Id, recipient: Id)
    requires UniqueAuthorizations(auths) && a in auths && Folded(auths, after, a, link, recipient)
    requires link == auths[a].link && recipient != auths[a].recipientContact
    ensures a in after ==> after[a].recipientContact == recipient
    ensures forall b :: b in after && b != a ==> b in auths && after[b].recipientContact == auths[b].recipientContact
    ensures forall b :: b in auths && b != a && auths[b].recipientContact == auths[a].recipientContact ==>
      b in after && after[b] == auths[b]
  {
    assert Unfold(0);
    forall b | b in auths && b != a && auths[b].recipientContact == auths[a].recipientContact
      ensures b in after && after[b] == auths[b]
    {
      assert !SameSlot(auths, a, b);
    }
  }

  lemma FoldedOffLink(auths: map<Id, Authorization>, after: map<Id, Authorization>, a: Id, link: Id, recipient: Id)
    requires a in auths && Folded(auths, after, a, link, recipient)
    requires recipient == auths[a].recipientContact && link != auths[a].link
    ensures a in after ==> after[a].link == link
    ensures forall b :: b in after && b != a ==> b in auths && after[b].link == auths[b].link
    ensures forall b :: b in auths && b != a && auths[b].link == auths[a].link ==> b in after && after[b] == auths[b]
  {
    assert Unfold(0);
  }

  // ---------------------------------------------------------------- the source's default prevails

  /** What a loop over authorizations rewrites. */
  datatype Goal = OtherRecipient(source: Id, target: Id) | OtherLink(source: Id, target: Id) {
    predicate Concerns(a: Authorization) {
      (if OtherRecipient? then a.recipientContact else a.link) == source
    }

    function Link(a: Authorization): Id {
      if OtherLink? then target else a.link
    }

    function Recipient(a: Authorization): Id {
      if OtherRecipient? then target else a.recipientContact
    }
  }

  /** The slot belongs to a default authorization. */
  ghost predicate HoldsDefault(auths: map<Id, Authorization>, link: Id, recipient: Id) {
    exists b :: b in auths && auths[b].link == link && auths[b].recipientContact == recipient && auths[b].isDefault
  }

  /** A default of the source is the default of the link it went to: it wins over the target's. */
  ghost predicate SourceDefaultsPrevail(goal: Goal, before: map<Id, Authorization>, after: map<Id, Authorization>) {
    forall a :: a in before && goal.Concerns(before[a]) && before[a].isDefault ==>
      HoldsDefault(after, goal.Link(before[a]), goal.Recipient(before[a]))
  }

  /** Every default among the rows already visited is the default of the link it went to. Folded like `Coherent`. */
  ghost predicate Prevail(goal: Goal, fetched: map<Id, Authorization>, auths: map<Id, Authorization>, ids: seq<Id>) {
    forall u :: Unfold(u) ==>
      forall a :: a in fetched && goal.Concerns(fetched[a]) && fetched[a].isDefault && a !in ids ==>
        HoldsDefault(auths, goal.Link(fetched[a]), goal.Recipient(fetched[a]))
  }

  lemma PrevailAtFirst(goal: Goal, auths: map<Id, Authorization>, ids: seq<Id>)
    requires forall a :: a in auths && goal.Concerns(auths[a]) ==> a in ids
    ensures Prevail(goal, auths, auths, ids)
  {
  }

  lemma PrevailAtLast(goal: Goal, fetched: map<Id, Authorization>, auths: map<Id, Authorization>)
    requires Prevail(goal, fetched, auths, [])
    ensures SourceDefaultsPrevail(goal, fetched, auths)
  {
    assert Unfold(0);
  }

  lemma PrevailStep(
    goal: Goal, fetched: map<Id, Authorization>, auths: map<Id, Authorization>, after: map<Id, Authorization>,
    ids: seq<Id>, rest: seq<Id>)
    requires Prevail(goal, fetched, auths, ids) && ids != [] && rest == ids[1..] && goal.source != goal.target
    requires UniqueAuthorizations(fetched) && OneDefaultPerLink(fetched)
    requires ids[0] in auths && ids[0] in fetched && auths[ids[0]] == fetched[ids[0]] && goal.Concerns(fetched[ids[0]])
    requires Folded(auths, after, ids[0], goal.Link(fetched[ids[0]]), goal.Recipient(fetched[ids[0]]))
    ensures Prevail(goal, fetched, after, rest)
  {
    assert Unfold(0);
    var x := ids[0];
    forall a | a in fetched && goal.Concerns(fetched[a]) && fetched[a].isDefault && a !in rest
      ensures HoldsDefault(after, goal.Link(fetched[a]), goal.Recipient(fetched[a]))
    {
      if a == x {
        FoldedDefault(auths, after, x, goal.Link(fetched[x]), goal.Recipient(fetched[x]));
      } else {
        assert a !in ids;
        assert !BothDefault(fetched, a, x) && !SameSlot(fetched, a, x);
        FoldedElsewhere(
          auths, after, x, goal.Link(fetched[x]), goal.Recipient(fetched[x]), goal.Link(fetched[a]),
          goal.Recipient(fetched[a]));
      }
    }
  }

  /** A default authorization is still a default in its new slot. */
  lemma FoldedDefault(auths: map<Id, Authorization>, after: map<Id, Authorization>, a: Id, link: Id, recipient: Id)
    requires a in auths && auths[a].isDefault && Folded(auths, after, a, link, recipient)
    ensures HoldsDefault(after, link, recipient)
  {
    assert Unfold(0);
    if SlotFree(auths, link, recipient) {
      assert after[a].isDefault;
    } else {
      var e :| Holds(auths, a, e, link, recipient) && after == Absorbed(auths, a, e);
      assert after[e].isDefault;
    }
  }

  /** Another default survives, unless a default arrives on its link. */
  lemma FoldedElsewhere(
    auths: map<Id, Authorization>, after: map<Id, Authorization>, a: Id, link: Id, recipient: Id, otherLink: Id,
    other: Id)
    requires a in auths && Folded(auths, after, a, link, recipient) && HoldsDefault(auths, otherLink, other)
    requires auths[a].isDefault ==> otherLink != link
    requires !(auths[a].link == otherLink && auths[a].recipientContact == other)
    ensures HoldsDefault(after, otherLink, other)
  {
    assert Unfold(0);
    var b :| b in auths && auths[b].link == otherLink && auths[b].recipientContact == other && auths[b].isDefault;
    if SlotFree(auths, link, recipient) {
      assert after[b] == auths[b];
    } else {
      var e :| Holds(auths, a, e, link, recipient) && after == Absorbed(auths, a, e);
      assert b in after && after[b].isDefault;
    }
  }

  // ---------------------------------------------------------------- the loops over authorizations

  /** How far the loop over the authorizations of a recipient contact has come. */
  ghost predicate RecipientProgress(
    fetched: map<Id, Authorization>, auths: map<Id, Authorization>, ids: seq<Id>, source: Id, target: Id)
  {
    && Awaiting(fetched, auths, ids, RecipientOf, source)
    && Prevail(OtherRecipient(source, target), fetched, auths, ids)
    && SlotsKept(fetched, auths, ids, target)
    && OffRecipientsPlaced(fetched, auths, source, target)
    && RowsRenamed(fetched, auths, ids, source, target)
    && RowsFollow(fetched, auths, source, target)
  }

  /** No authorization of the source contact meets one of the target contact. */
  ghost predicate NoneMeets(auths: map<Id, Authorization>, source: Id, target: Id) {
    forall a :: a in auths && auths[a].recipientContact == source ==> SlotFree(auths, auths[a].link, target)
  }

  ghost function RenamedRow(row: Authorization, waiting: bool, source: Id, target: Id): Authorization {
    if row.recipientContact == source && !waiting then row.(recipientContact := target) else row
  }

  /** If none meets another, the visited rows have the new contact and nothing else has changed. Folded like
      `Coherent`. */
  ghost predicate RowsRenamed(
    before: map<Id, Authorization>, auths: map<Id, Authorization>, ids: seq<Id>, source: Id, target: Id)
  {
    forall u :: Unfold(u) ==>
      NoneMeets(before, source, target) ==>
        && auths.Keys == before.Keys
        && (forall a :: a in before ==> auths[a] == RenamedRow(before[a], a in ids, source, target))
  }

  lemma RowsRenamedAtFirst(auths: map<Id, Authorization>, ids: seq<Id>, source: Id, target: Id)
    requires forall a :: a in auths && auths[a].recipientContact == source ==> a in ids
    ensures RowsRenamed(auths, auths, ids, source, target)
  {
  }

  lemma RowsRenamedStep(
    before: map<Id, Authorization>, auths: map<Id, Authorization>, after: map<Id, Authorization>,
    ids: seq<Id>, rest: seq<Id>, source: Id, target: Id)
    requires RowsRenamed(before, auths, ids, source, target) && SlotsKept(before, auths, ids, target)
    requires OneDefaultPerLink(auths) && ids != [] && rest == ids[1..] && Ascending(ids) && source != target
    requires ids[0] in before && before[ids[0]].recipientContact == source
    requires ids[0] in auths && auths[ids[0]] == before[ids[0]]
    requires Folded(auths, after, ids[0], before[ids[0]].link, target)
    ensures RowsRenamed(before, after, rest, source, target)
  {
    var x := ids[0];
    assert x in ids && x !in rest && forall a :: a in ids <==> a == x || a in rest;
    assert Unfold(0);
    if NoneMeets(before, source, target) {
      assert SlotFree(auths, before[x].link, target);
      assert forall a :: a in auths && a != x && auths[x].isDefault ==> !BothDefault(auths, a, x);
    }
  }

  /** The rows that are left are on their links, for their contacts or for the target instead of the source. Folded
      like `Coherent`. */
  ghost predicate RowsFollow(before: map<Id, Authorization>, after: map<Id, Authorization>, source: Id, target: Id) {
    forall u :: Unfold(u) ==>
      forall a :: a in after ==>
        && a in before && after[a].link == before[a].link
        && (after[a].recipientContact == before[a].recipientContact
            || (before[a].recipientContact == source && after[a].recipientContact == target))
  }

  lemma RowsFollowStep(
    before: map<Id, Authorization>, auths: map<Id, Authorization>, after: map<Id, Authorization>, x: Id,
    source: Id, target: Id)
    requires RowsFollow(before, auths, source, target)
    requires x in before && before[x].recipientContact == source && x in auths && auths[x] == before[x]
    requires Folded(auths, after, x, auths[x].link, target)
    ensures RowsFollow(before, after, source, target)
  {
    assert Unfold(0);
  }

  /** Authorizations of other recipient contacts stay in their slots. Folded like `Coherent`. */
  ghost predicate OffRecipientsPlaced(
    before: map<Id, Authorization>, after: map<Id, Authorization>, source: Id, target: Id)
  {
    forall u :: Unfold(u) ==>
      forall a, l, c | c != source && c != target :: InSlot(before, a, l, c) <==> InSlot(after, a, l, c)
  }

  ghost predicate InSlot(auths: map<Id, Authorization>, a: Id, l: Id, c: Id) {
    a in auths && auths[a].link == l && auths[a].recipientContact == c
  }

  lemma OffRecipientsPlacedStep(
    before: map<Id, Authorization>, auths: map<Id, Authorization>, after: map<Id, Authorization>, x: Id, link: Id,
    source: Id, target: Id)
    requires OffRecipientsPlaced(before, auths, source, target) && x in auths && auths[x].recipientContact == source
    requires Folded(auths, after, x, link, target)
    ensures OffRecipientsPlaced(before, after, source, target)
  {
    assert Unfold(0);
    forall a, l, c | c != source && c != target
      ensures InSlot(before, a, l, c) <==> InSlot(after, a, l, c)
    {
      assert InSlot(auths, a, l, c) <==> InSlot(after, a, l, c);
    }
  }

  /** One round of `_merge_authorized_contacts`. */
  lemma RoundOffRecipient(
    n: Labels, t: Tables, m: Labels, after: map<Id, Authorization>, fetched: map<Id, Authorization>,
    ids: seq<Id>, rest: seq<Id>, source: Id, target: Id, r: Renaming)
    returns (m': Labels)
    requires Coherent(t, m, r) && m == n.(grants := m.grants) && Keeps(ViewOf(n), ViewOf(m))
    requires source in t.recipients && target in t.recipients && source != target
    requires n.recipients[source] == n.recipients[target]
    requires RecipientProgress(fetched, t.authorizations, ids, source, target) && ids != [] && rest == ids[1..]
    requires UniqueAuthorizations(fetched) && OneDefaultPerLink(fetched)
    requires ids[0] in t.authorizations && ids[0] in fetched && t.authorizations[ids[0]] == fetched[ids[0]]
    requires fetched[ids[0]].recipientContact == source && Ascending(ids)
    requires Folded(t.authorizations, after, ids[0], fetched[ids[0]].link, target)
    ensures Coherent(t.(authorizations := after), m', r) && m' == n.(grants := m'.grants)
    ensures Keeps(ViewOf(n), ViewOf(m'))
    ensures RecipientProgress(fetched, after, rest, source, target)
  {
    var link := fetched[ids[0]].link;
    m' := FoldKeeps(t, after, m, ids[0], link, target, r);
    KeepsTransitive(ViewOf(n), ViewOf(m), ViewOf(m'));
    CoherentUnique(t, m, r);
    FoldedOffRecipient(t.authorizations, after, ids[0], link, target);
    AwaitingStep(fetched, t.authorizations, after, ids, rest, RecipientOf, source);
    PrevailStep(OtherRecipient(source, target), fetched, t.authorizations, after, ids, rest);
    SlotsKeptStep(fetched, t.authorizations, after, ids, rest, source, target);
    OffRecipientsPlacedStep(fetched, t.authorizations, after, ids[0], link, source, target);
    RowsRenamedStep(fetched, t.authorizations, after, ids, rest, source, target);
    RowsFollowStep(fetched, t.authorizations, after, ids[0], source, target);
  }

  /** How far the loop over the authorizations of a link has come. */
  ghost predicate LinkProgress(
    fetched: map<Id, Authorization>, auths: map<Id, Authorization>, ids: seq<Id>, source: Id, target: Id)
  {
    Awaiting(fetched, auths, ids, LinkOf, source) && Joined(fetched, auths, ids, source, target)
  }

  /** One round of `_merge_shipper_links`. */
  lemma RoundOffLink(
    n: Labels, t: Tables, m: Labels, after: map<Id, Authorization>, fetched: map<Id, Authorization>,
    ids: seq<Id>, rest: seq<Id>, source: Id, target: Id, r: Renaming)
    returns (m': Labels)
    requires Coherent(t, m, r) && m == n.(grants := m.grants) && Keeps(ViewOf(n), ViewOf(m))
    requires source in t.links && target in t.links && source != target && n.links[source] == n.links[target]
    requires LinkProgress(fetched, t.authorizations, ids, source, target) && ids != [] && rest == ids[1..]
    requires UniqueAuthorizations(fetched) && OneDefaultPerLink(fetched) && Ascending(ids)
    requires ids[0] in t.authorizations && ids[0] in fetched && t.authorizations[ids[0]] == fetched[ids[0]]
    requires fetched[ids[0]].link == source
    requires Folded(t.authorizations, after, ids[0], target, fetched[ids[0]].recipientContact)
    ensures Coherent(t.(authorizations := after), m', r) && m' == n.(grants := m'.grants)
    ensures Keeps(ViewOf(n), ViewOf(m'))
    ensures LinkProgress(fetched, after, rest, source, target)
  {
    var recipient := fetched[ids[0]].recipientContact;
    m' := FoldKeeps(t, after, m, ids[0], target, recipient, r);
    KeepsTransitive(ViewOf(n), ViewOf(m), ViewOf(m'));
    CoherentUnique(t, m, r);
    FoldedOffLink(t.authorizations, after, ids[0], target, recipient);
    AwaitingStep(fetched, t.authorizations, after, ids, rest, LinkOf, source);
    JoinedStep(fetched, t.authorizations, after, ids, rest, source, target);
  }

  /** What the closed form says about defaults. */
  lemma JoinedPrevail(before: map<Id, Authorization>, after: map<Id, Authorization>, source: Id, target: Id)
    requires Joined(before, after, [], source, target) && source != target && UniqueAuthorizations(before)
    ensures SourceDefaultsPrevail(OtherLink(source, target), before, after)
  {
    assert Unfold(0);
    forall a | a in before && before[a].link == source && before[a].isDefault
      ensures HoldsDefault(after, target, before[a].recipientContact)
    {
      assert VisitedDefault(before, [], source, a);
      var e := a;
      if !SlotFree(before, target, before[a].recipientContact) {
        e :| e in before && before[e].link == target && before[e].recipientContact == before[a].recipientContact;
      }
      assert JoinedRow(before, after, [], source, target, e);
      assert e in after && after[e].isDefault;
    }
  }

  /** One round of the loop of `_merge_authorized_contacts`. */
  method FoldRecipientAuthorization(
    w: World, rules: Rules, ghost t: Tables, ids: seq<Id>, link: Id, source: Id, target: Id,
    ghost n: Labels, ghost m: Labels, ghost r: Renaming)
    returns (saved: Saved, ghost m': Labels)
    requires Coherent(w.tables, m, r) && m == n.(grants := m.grants) && Keeps(ViewOf(n), ViewOf(m))
    requires w.tables == t.(authorizations := w.tables.authorizations)
    requires source in t.recipients && target in t.recipients && source != target
    requires n.recipients[source] == n.recipients[target]
    requires RecipientProgress(t.authorizations, w.tables.authorizations, ids, source, target) && ids != []
    requires UniqueAuthorizations(t.authorizations) && OneDefaultPerLink(t.authorizations)
    requires ids[0] in t.authorizations && link == t.authorizations[ids[0]].link
    requires OwnOrganizationOnly(rules) ==> NoneStrandedYet(t, ids, source, target)
    ensures saved.Done? ==> saved.tables == t.(authorizations := saved.tables.authorizations)
    ensures saved.Done? ==>
      Coherent(saved.tables, m', r) && m' == n.(grants := m'.grants) && Keeps(ViewOf(n), ViewOf(m'))
    ensures saved.Done? ==> RecipientProgress(t.authorizations, saved.tables.authorizations, ids[1..], source, target)
    ensures saved.Done? && OwnOrganizationOnly(rules) ==> NoneStrandedYet(t, ids[1..], source, target)
    ensures Permissive(rules) ==> saved.Done?
    ensures saved.Refused? && OnlyConstraints(rules) ==>
      !IgnoresContacts(rules) && (TargetFits(t, target) ==> exists a :: Stranded(t, a, source, target))
    ensures saved.Refused? ==> saved.why == Invalid
  {
    m' := m;
    AwaitingNext(t.authorizations, w.tables.authorizations, ids, RecipientOf, source);
    FirstIsStranded(t, w.tables.authorizations, ids, source, target);
    CoherentUnique(w.tables, m, r);
    saved := FoldAuthorization(w, rules, ids[0], link, target);
    if saved.Refused? {
      NoSecondBeside(w.tables.authorizations, ids[0]);
      return;
    }
    if OwnOrganizationOnly(rules) { NoneStrandedStep(t, ids, ids[1..], source, target); }
    m' := RoundOffRecipient(n, w.tables, m, saved.tables.authorizations, t.authorizations, ids, ids[1..], source,
      target, r);
  }

  /** `_merge_authorized_contacts` */
  method MergeAuthorizedContacts(w: World, rules: Rules, source: Id, target: Id, ghost n: Labels, ghost r: Renaming)
    returns (saved: Saved, ghost n': Labels)
    requires Coherent(w.tables, n, r)
    requires source in w.tables.recipients && target in w.tables.recipients && source != target
    requires n.recipients[source] == n.recipients[target]
    ensures saved.Done? ==> saved.tables == w.tables.(authorizations := saved.tables.authorizations)
    ensures saved.Done? ==>
      Coherent(saved.tables, n', r) && n' == n.(grants := n'.grants) && Keeps(ViewOf(n), ViewOf(n'))
    ensures saved.Done?
      ==> forall a :: a in saved.tables.authorizations ==> saved.tables.authorizations[a].recipientContact != source
    ensures saved.Done?
      ==> SourceDefaultsPrevail(OtherRecipient(source, target), w.tables.authorizations, saved.tables.authorizations)
    ensures saved.Done? ==> OffRecipientsPlaced(w.tables.authorizations, saved.tables.authorizations, source, target)
    ensures Permissive(rules) ==> saved.Done?
    ensures saved.Done? && OwnOrganizationOnly(rules) ==> forall a :: !Stranded(w.tables, a, source, target)
    ensures saved.Done? ==> RowsRenamed(w.tables.authorizations, saved.tables.authorizations, [], source, target)
    ensures saved.Done? ==> RowsFollow(w.tables.authorizations, saved.tables.authorizations, source, target)
    ensures saved.Refused? && OnlyConstraints(rules) ==>
      && !IgnoresContacts(rules)
      && (TargetFits(w.tables, target) ==> exists a :: Stranded(w.tables, a, source, target))
    ensures saved.Refused? ==> saved.why == Invalid
  {
    n' := n;
    KeepsItself(ViewOf(n));
    var t := w.tables;
    var fetched := t.authorizations;
    var ids := FetchIds(set a | a in fetched && fetched[a].recipientContact == source);
    AwaitingAll(fetched, ids, RecipientOf, source);
    PrevailAtFirst(OtherRecipient(source, target), fetched, ids);
    SlotsKeptAtFirst(fetched, ids, target);
    NoneStrandedAtFirst(t, ids, source, target);
    RowsRenamedAtFirst(fetched, ids, source, target);
    CoherentUnique(t, n, r);
    while ids != []
      invariant t == w.tables.(authorizations := t.authorizations)
      invariant Coherent(t, n', r) && n' == n.(grants := n'.grants) && Keeps(ViewOf(n), ViewOf(n'))
      invariant RecipientProgress(fetched, t.authorizations, ids, source, target)
      invariant OwnOrganizationOnly(rules) ==> NoneStrandedYet(w.tables, ids, source, target)
      decreases |ids|
    {
      AwaitingNext(fetched, t.authorizations, ids, RecipientOf, source);
      var link := fetched[ids[0]].link;
      saved, n' := FoldRecipientAuthorization(w.(tables := t), rules, w.tables, ids, link, source, target, n, n', r);
      if saved.Refused? { return; }
      t, ids := saved.tables, ids[1..];
    }
    if OwnOrganizationOnly(rules) { NoneStranded(w.tables, source, target); }
    AwaitingNone(fetched, t.authorizations, RecipientOf, source);
    PrevailAtLast(OtherRecipient(source, target), fetched, t.authorizations);
    saved := Done(t);
  }

  /** One round of the loop of `_merge_shipper_links`. */
  method FoldLinkAuthorization(
    w: World, rules: Rules, fetched: map<Id, Authorization>, ids: seq<Id>, source: Id, target: Id,
    ghost n: Labels, ghost m: Labels, ghost r: Renaming)
    returns (saved: Saved, ghost m': Labels)
    requires Coherent(w.tables, m, r) && m == n.(grants := m.grants) && Keeps(ViewOf(n), ViewOf(m))
    requires source in w.tables.links && target in w.tables.links && source != target
    requires n.links[source] == n.links[target]
    requires LinkProgress(fetched, w.tables.authorizations, ids, source, target) && ids != []
    requires UniqueAuthorizations(fetched) && OneDefaultPerLink(fetched)
    requires OneActiveDefault(rules) ==> StillBlocked(fetched, w.tables.authorizations, ids, source, target)
    ensures saved.Done? ==> saved.tables == w.tables.(authorizations := saved.tables.authorizations)
    ensures saved.Done? ==>
      Coherent(saved.tables, m', r) && m' == n.(grants := m'.grants) && Keeps(ViewOf(n), ViewOf(m'))
    ensures saved.Done? ==> LinkProgress(fetched, saved.tables.authorizations, ids[1..], source, target)
    ensures saved.Done? && OneActiveDefault(rules)
      ==> StillBlocked(fetched, saved.tables.authorizations, ids[1..], source, target)
    ensures Permissive(rules) ==> saved.Done?
    ensures saved.Refused? ==>
      DefaultsExplain(rules, LinkFits(w.tables, fetched, source, target),
                      exists a :: Blocked(fetched, a, source, target))
    ensures saved.Refused? ==> saved.why == Invalid
  {
    m' := m;
    var auths := w.tables.authorizations;
    AwaitingNext(fetched, auths, ids, LinkOf, source);
    CoherentUnique(w.tables, m, r);
    FirstIsBlocked(fetched, auths, ids, source, target);
    saved := FoldAuthorization(w, rules, ids[0], target, fetched[ids[0]].recipientContact);
    if saved.Refused? {
      FoldExplained(w.tables, rules, fetched, ids, source, target);
      return;
    }
    if OneActiveDefault(rules) {
      StillBlockedStep(fetched, auths, saved.tables.authorizations, ids, ids[1..], source, target);
    }
    m' := RoundOffLink(n, w.tables, m, saved.tables.authorizations, fetched, ids, ids[1..], source, target, r);
  }

  /** The loop of `_merge_shipper_links`. */
  method MergeLinkAuthorizations(w: World, rules: Rules, source: Id, target: Id, ghost n: Labels, ghost r: Renaming)
    returns (saved: Saved, ghost n': Labels)
    requires Coherent(w.tables, n, r)
    requires source in w.tables.links && target in w.tables.links && source != target
    requires n.links[source] == n.links[target]
    ensures saved.Done? ==> saved.tables == w.tables.(authorizations := saved.tables.authorizations)
    ensures saved.Done? ==>
      Coherent(saved.tables, n', r) && n' == n.(grants := n'.grants) && Keeps(ViewOf(n), ViewOf(n'))
    ensures saved.Done? ==>
      forall a :: a in saved.tables.authorizations ==> saved.tables.authorizations[a].link != source
    ensures saved.Done?
      ==> SourceDefaultsPrevail(OtherLink(source, target), w.tables.authorizations, saved.tables.authorizations)
    ensures saved.Done? ==> OffLinksKept(w.tables.authorizations, saved.tables.authorizations, source, target)
    ensures saved.Done? ==> Joined(w.tables.authorizations, saved.tables.authorizations, [], source, target)
    ensures Permissive(rules) ==> saved.Done?
    ensures saved.Done? && OneActiveDefault(rules) ==> forall a :: !Blocked(w.tables.authorizations, a, source, target)
    ensures saved.Refused? ==>
      DefaultsExplain(rules, LinkFits(w.tables, w.tables.authorizations, source, target),
                      exists a :: Blocked(w.tables.authorizations, a, source, target))
    ensures saved.Refused? ==> saved.why == Invalid
  {
    n' := n;
    KeepsItself(ViewOf(n));
    var t := w.tables;
    var fetched := t.authorizations;
    var ids := FetchIds(set a | a in fetched && fetched[a].link == source);
    AwaitingAll(fetched, ids, LinkOf, source);
    JoinedAtFirst(fetched, ids, source, target);
    CoherentUnique(t, n, r);
    StillBlockedAtFirst(fetched, ids, source, target);
    while ids != []
      invariant t == w.tables.(authorizations := t.authorizations)
      invariant Coherent(t, n', r) && n' == n.(grants := n'.grants) && Keeps(ViewOf(n), ViewOf(n'))
      invariant LinkProgress(fetched, t.authorizations, ids, source, target)
      invariant OneActiveDefault(rules) ==> StillBlocked(fetched, t.authorizations, ids, source, target)
      decreases |ids|
    {
      saved, n' := FoldLinkAuthorization(w.(tables := t), rules, fetched, ids, source, target, n, n', r);
      if saved.Refused? {
        FitsAlike(w.tables, t, fetched, source, target);
        return;
      }
      t, ids := saved.tables, ids[1..];
    }
    if OneActiveDefault(rules) { StillBlockedNone(fetched, t.authorizations, source, target); }
    AwaitingNone(fetched, t.authorizations, LinkOf, source);
    JoinedPrevail(fetched, t.authorizations, source, target);
    JoinedOffLinks(fetched, t.authorizations, source, target);
    saved := Done(t);
  }

  /** `_merge_shipper_links` */
  method MergeShipperLinks(w: World, rules: Rules, source: Id, target: Id, ghost n: Labels, ghost r: Renaming)
    returns (saved: Saved, ghost n': Labels)
    requires Coherent(w.tables, n, r)
    requires source in w.tables.links && target in w.tables.links && source != target
    requires n.links[source] == n.links[target]
    ensures saved.Done? ==>
      saved.tables == w.tables.(authorizations := saved.tables.authorizations, links := w.tables.links - {source})
    ensures saved.Done? ==> Coherent(saved.tables, n', r) && Keeps(ViewOf(n), ViewOf(n'))
    ensures saved.Done? ==> n' == n.(grants := n'.grants, links := n.links - {source})
    ensures saved.Done? ==>
      forall a :: a in saved.tables.authorizations ==> saved.tables.authorizations[a].link != source
    ensures saved.Done?
      ==> SourceDefaultsPrevail(OtherLink(source, target), w.tables.authorizations, saved.tables.authorizations)
    ensures saved.Done? ==> OffLinksKept(w.tables.authorizations, saved.tables.authorizations, source, target)
    ensures saved.Done? ==> Joined(w.tables.authorizations, saved.tables.authorizations, [], source, target)
    ensures Permissive(rules) ==> saved.Done?
    ensures saved.Done? && OneActiveDefault(rules) ==> forall a :: !Blocked(w.tables.authorizations, a, source, target)
    ensures saved.Refused? ==>
      DefaultsExplain(rules, LinkFits(w.tables, w.tables.authorizations, source, target),
                      exists a :: Blocked(w.tables.authorizations, a, source, target))
    ensures saved.Refused? ==> saved.why == Invalid
  {
    saved, n' := MergeLinkAuthorizations(w, rules, source, target, n, r);
    if saved.Refused? { return; }
    ghost var m := n';
    n' := LinkDropped(saved.tables, n', source, target, r);
    KeepsTransitive(ViewOf(n), ViewOf(m), ViewOf(n'));
    saved := Done(DeleteLink(saved.tables, source));
  }
}
