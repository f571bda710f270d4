/** What the authorizations of a link become when they join those of another link, in closed form
    (wms/admin_contacts_merge_service.py). */
module LinkJoin {
  import opened Ids
  import opened RegistryTables
  import opened RegistrySteps
  import opened RegistryWrites

  /** Authorizations of other links are as they were. Folded like `Coherent`. */
  ghost predicate OffLinksKept(before: map<Id, Authorization>, after: map<Id, Authorization>, source: Id, target: Id) {
    forall u :: Unfold(u) ==>
      forall a, l | l != source && l != target :: HasLink(before, a, l) || HasLink(after, a, l) ==>
        a in before && a in after && before[a] == after[a]
  }

  ghost predicate HasLink(auths: map<Id, Authorization>, a: Id, l: Id) {
    a in auths && auths[a].link == l
  }

  // ---------------------------------------------------------------- what two links are joined to

  /** An authorization of the source link that the loop has visited. */
  ghost predicate Visited(before: map<Id, Authorization>, ids: seq<Id>, source: Id, b: Id) {
    b in before && before[b].link == source && b !in ids
  }

  ghost predicate VisitedActive(before: map<Id, Authorization>, ids: seq<Id>, source: Id, b: Id, c: Id) {
    Visited(before, ids, source, b) && before[b].active && before[b].recipientContact == c
  }

  ghost predicate VisitedDefault(before: map<Id, Authorization>, ids: seq<Id>, source: Id, b: Id) {
    Visited(before, ids, source, b) && before[b].isDefault
  }

  /** What an authorization of the target link is once it has met the visited ones: it is active if it or the one for
      the same contact was; the source's default prevails. */
  ghost function Met(before: map<Id, Authorization>, ids: seq<Id>, source: Id, target: Id, a: Id): Authorization
    requires a in before
  {
    var row := before[a];
    var active := row.active || exists b :: VisitedActive(before, ids, source, b, row.recipientContact);
    var isDefault :=
      if exists d :: VisitedDefault(before, ids, source, d)
      then exists d :: VisitedDefault(before, ids, source, d) && before[d].recipientContact == row.recipientContact
      else row.isDefault;
    row.(link := target, active := active, isDefault := isDefault)
  }

  /** The visited authorization is gone: the target link had one for its contact. */
  ghost predicate Gone(before: map<Id, Authorization>, ids: seq<Id>, source: Id, target: Id, a: Id) {
    Visited(before, ids, source, a) && !SlotFree(before, target, before[a].recipientContact)
  }

  ghost predicate JoinedRow(
    before: map<Id, Authorization>, auths: map<Id, Authorization>, ids: seq<Id>, source: Id, target: Id, a: Id)
  {
    && (a in auths <==> a in before && !Gone(before, ids, source, target, a))
    && (a in auths ==>
          auths[a] ==
            if before[a].link == target || Visited(before, ids, source, a) then Met(before, ids, source, target, a)
            else before[a])
  }

  /** How far the authorizations of the source link have joined those of the target link. Folded like `Coherent`. */
  ghost predicate Joined(
    before: map<Id, Authorization>, auths: map<Id, Authorization>, ids: seq<Id>, source: Id, target: Id)
  {
    forall u :: Unfold(u) ==> forall a :: JoinedRow(before, auths, ids, source, target, a)
  }

  lemma JoinedAtFirst(auths: map<Id, Authorization>, ids: seq<Id>, source: Id, target: Id)
    requires forall a :: a in auths && auths[a].link == source ==> a in ids
    ensures Joined(auths, auths, ids, source, target)
  {
    assert forall b :: !Visited(auths, ids, source, b);
  }

  /** The slot of the row to come is as it was at the start. */
  lemma SlotAsBefore(
    before: map<Id, Authorization>, auths: map<Id, Authorization>, ids: seq<Id>, source: Id, target: Id, x: Id)
    requires Joined(before, auths, ids, source, target) && source != target && UniqueAuthorizations(before)
    requires x in before && before[x].link == source && x in ids
    ensures SlotFree(auths, target, before[x].recipientContact) <==>
      SlotFree(before, target, before[x].recipientContact)
  {
    assert Unfold(0);
    var c := before[x].recipientContact;
    forall a | a in auths && auths[a].link == target && auths[a].recipientContact == c
      ensures a in before && before[a].link == target && before[a].recipientContact == c
    {
      assert JoinedRow(before, auths, ids, source, target, a);
      assert !SameSlot(before, a, x) || a == x;
    }
    forall a | a in before && before[a].link == target && before[a].recipientContact == c
      ensures a in auths && auths[a].link == target && auths[a].recipientContact == c
    {
      assert JoinedRow(before, auths, ids, source, target, a);
    }
  }

  /** One more visited authorization: it adds its activity to the row of its contact, and prevails if it is a
      default. */
  lemma MetStep(before: map<Id, Authorization>, ids: seq<Id>, rest: seq<Id>, source: Id, target: Id, a: Id)
    requires ids != [] && rest == ids[1..] && Ascending(ids) && OneDefaultPerLink(before) && a in before
    requires ids[0] in before && before[ids[0]].link == source
    ensures forall b :: Visited(before, rest, source, b) <==> Visited(before, ids, source, b) || b == ids[0]
    ensures
      var x, met := before[ids[0]], Met(before, ids, source, target, a);
      var same := x.recipientContact == before[a].recipientContact;
      Met(before, rest, source, target, a)
        == met.(active := met.active || (same && x.active), isDefault := if x.isDefault then same else met.isDefault)
  {
    var x := ids[0];
    assert x in ids && x !in rest && forall b :: b in ids <==> b == x || b in rest;
    VisitedMore(before, ids, rest, source, before[a].recipientContact);
  }

  lemma VisitedMore(before: map<Id, Authorization>, ids: seq<Id>, rest: seq<Id>, source: Id, c: Id)
    requires ids != [] && ids[0] in before && before[ids[0]].link == source && OneDefaultPerLink(before)
    requires ids[0] !in rest && forall b :: b in ids <==> b == ids[0] || b in rest
    ensures (exists b :: VisitedActive(before, rest, source, b, c))
      <==> (exists b :: VisitedActive(before, ids, source, b, c))
           || (before[ids[0]].active && before[ids[0]].recipientContact == c)
    ensures (exists d :: VisitedDefault(before, rest, source, d))
      <==> (exists d :: VisitedDefault(before, ids, source, d)) || before[ids[0]].isDefault
    ensures before[ids[0]].isDefault ==>
      ((exists d :: VisitedDefault(before, rest, source, d) && before[d].recipientContact == c)
        <==> before[ids[0]].recipientContact == c)
    ensures !before[ids[0]].isDefault ==>
      ((exists d :: VisitedDefault(before, rest, source, d) && before[d].recipientContact == c)
        <==> exists d :: VisitedDefault(before, ids, source, d) && before[d].recipientContact == c)
  {
    var x := ids[0];
    if b :| VisitedActive(before, ids, source, b, c) { assert VisitedActive(before, rest, source, b, c); }
    if before[x].active && before[x].recipientContact == c { assert VisitedActive(before, rest, source, x, c); }
    if b :| VisitedActive(before, rest, source, b, c) && b != x { assert VisitedActive(before, ids, source, b, c); }
    if d :| VisitedDefault(before, ids, source, d) { assert VisitedDefault(before, rest, source, d); }
    if before[x].isDefault {
      assert VisitedDefault(before, rest, source, x);
      assert forall d :: VisitedDefault(before, rest, source, d) ==> BothDefault(before, d, x);
    } else {
      assert forall d :: VisitedDefault(before, rest, source, d) <==> VisitedDefault(before, ids, source, d);
    }
  }

  lemma JoinedStep(
    before: map<Id, Authorization>, auths: map<Id, Authorization>, after: map<Id, Authorization>,
    ids: seq<Id>, rest: seq<Id>, source: Id, target: Id)
    requires Joined(before, auths, ids, source, target) && source != target
    requires UniqueAuthorizations(before) && OneDefaultPerLink(before) && OneDefaultPerLink(auths)
    requires UniqueAuthorizations(auths) && ids != [] && rest == ids[1..] && Ascending(ids)
    requires ids[0] in before && before[ids[0]].link == source && ids[0] in auths && auths[ids[0]] == before[ids[0]]
    requires Folded(auths, after, ids[0], target, before[ids[0]].recipientContact)
    ensures Joined(before, after, rest, source, target)
  {
    var x := ids[0];
    assert x in ids;
    SlotAsBefore(before, auths, ids, source, target, x);
    assert Unfold(0);
    forall a ensures JoinedRow(before, after, rest, source, target, a) {
      assert JoinedRow(before, auths, ids, source, target, a);
      if a in before { MetStep(before, ids, rest, source, target, a); }
      if SlotFree(auths, target, before[x].recipientContact) {
        JoinedByMove(before, auths, ids, rest, source, target, a);
      } else {
        var e :| Holds(auths, x, e, target, before[x].recipientContact) && after == Absorbed(auths, x, e);
        JoinedByAbsorption(before, auths, ids, rest, source, target, e, a);
      }
    }
  }

  lemma JoinedByMove(
    before: map<Id, Authorization>, auths: map<Id, Authorization>,
    ids: seq<Id>, rest: seq<Id>, source: Id, target: Id, a: Id)
    requires JoinedRow(before, auths, ids, source, target, a) && source != target
    requires ids != [] && rest == ids[1..] && Ascending(ids) && UniqueAuthorizations(before) && ids[0] in ids
    requires ids[0] in before && before[ids[0]].link == source && ids[0] in auths && auths[ids[0]] == before[ids[0]]
    requires SlotFree(auths, target, before[ids[0]].recipientContact)
    requires SlotFree(before, target, before[ids[0]].recipientContact)
    requires forall b :: Visited(before, rest, source, b) <==> Visited(before, ids, source, b) || b == ids[0]
    requires a in before ==>
      var x, met := before[ids[0]], Met(before, ids, source, target, a);
      var same := x.recipientContact == before[a].recipientContact;
      Met(before, rest, source, target, a)
        == met.(active := met.active || (same && x.active), isDefault := if x.isDefault then same else met.isDefault)
    ensures JoinedRow(before, Moved(auths, ids[0], target, before[ids[0]].recipientContact), rest, source, target, a)
  {
    var x := ids[0];
    assert forall b :: Visited(before, ids, source, b) ==> !SameSlot(before, b, x);
  }

  lemma JoinedByAbsorption(
    before: map<Id, Authorization>, auths: map<Id, Authorization>,
    ids: seq<Id>, rest: seq<Id>, source: Id, target: Id, e: Id, a: Id)
    requires JoinedRow(before, auths, ids, source, target, a) && source != target
    requires ids != [] && rest == ids[1..] && Ascending(ids) && UniqueAuthorizations(auths) && OneDefaultPerLink(auths)
    requires ids[0] in before && before[ids[0]].link == source && ids[0] in auths && auths[ids[0]] == before[ids[0]]
    requires Holds(auths, ids[0], e, target, before[ids[0]].recipientContact)
    requires !SlotFree(before, target, before[ids[0]].recipientContact)
    requires forall b :: Visited(before, rest, source, b) <==> Visited(before, ids, source, b) || b == ids[0]
    requires a in before ==>
      var x, met := before[ids[0]], Met(before, ids, source, target, a);
      var same := x.recipientContact == before[a].recipientContact;
      Met(before, rest, source, target, a)
        == met.(active := met.active || (same && x.active), isDefault := if x.isDefault then same else met.isDefault)
    ensures JoinedRow(before, Absorbed(auths, ids[0], e), rest, source, target, a)
  {
    if a in auths && auths[a].link == target && a != e {
      assert !SameSlot(auths, a, e) && !BothDefault(auths, a, e);
    }
  }

  /** When the loop is done the source link has no authorization left, and other links are as they were. */
  lemma JoinedOffLinks(before: map<Id, Authorization>, after: map<Id, Authorization>, source: Id, target: Id)
    requires Joined(before, after, [], source, target) && source != target
    ensures forall a :: a in after ==> after[a].link != source
    ensures OffLinksKept(before, after, source, target)
  {
    assert Unfold(0);
    forall a ensures a in after ==> after[a].link != source {
      assert JoinedRow(before, after, [], source, target, a);
    }
    forall a, l | l != source && l != target && (HasLink(before, a, l) || HasLink(after, a, l))
      ensures a in before && a in after && before[a] == after[a]
    {
      assert JoinedRow(before, after, [], source, target, a);
    }
  }

  /** The target link is authorized for the contacts of both. */
  lemma JoinedSlots(before: map<Id, Authorization>, after: map<Id, Authorization>, source: Id, target: Id, c: Id)
    requires Joined(before, after, [], source, target) && source != target
    ensures SlotFree(after, target, c) <==> SlotFree(before, source, c) && SlotFree(before, target, c)
  {
    assert Unfold(0);
    if !(SlotFree(before, source, c) && SlotFree(before, target, c)) {
      var l := if SlotFree(before, target, c) then source else target;
      var a :| a in before && before[a].link == l && before[a].recipientContact == c;
      assert JoinedRow(before, after, [], source, target, a);
      assert a in after && after[a].link == target && after[a].recipientContact == c;
    }
    if !SlotFree(after, target, c) {
      var a :| a in after && after[a].link == target && after[a].recipientContact == c;
      assert JoinedRow(before, after, [], source, target, a);
      assert a in before && before[a].link in {source, target} && before[a].recipientContact == c;
    }
  }
}
