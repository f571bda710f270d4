/** Merging the shippers of two contacts, with their links (wms/admin_contacts_merge_service.py). */
module ShipperMerge {
  import opened Ids
  import opened RegistryTables
  import opened RegistrySteps
  import opened RegistryWrites
  import opened AuthorizationMerge
  import opened LinkMerge
  import opened RegistryEntries

  /** What the kept shipper takes over from the one folded into it. */
  function MergedShipper(target: Shipper, source: Shipper): (merged: Shipper)
    ensures merged.organization == target.organization
    ensures merged.defaultContact
        == (if target.defaultContact.Some? then target.defaultContact else source.defaultContact)
    ensures merged.status.Validated? <==> target.status.Validated? || source.status.Validated?
    ensures !source.status.Validated? ==> merged.status == target.status
    ensures merged.canSendToAll <==> target.canSendToAll || source.canSendToAll
    ensures merged.active <==> target.active || source.active
  {
    var contact :=
      if target.defaultContact.None? && source.defaultContact.Some? then source.defaultContact
      else target.defaultContact;
    var status := if source.status.Validated? && !target.status.Validated? then Validated else target.status;
    target.(defaultContact := contact, status := status,
            canSendToAll := if source.canSendToAll && !target.canSendToAll then true else target.canSendToAll,
            active := if source.active && !target.active then true else target.active)
  }

  /** How far the loop over the links of a shipper has come. */
  ghost predicate ShipperProgress(t: Tables, now: Tables, rules: Rules, ids: seq<Id>, source: Id, target: Id) {
    && Awaiting(t.links, now.links, ids, ShipperOf, source) && LinksKept(t.links, now.links)
    && EntriesProgress(t, now, ids, source, target)
    && (OneActiveDefault(rules)
        ==> StillPairsBlocked(OfShippers, t, now.links, now.authorizations, ids, source, target))
  }

  lemma ShipperProgressAtFirst(t: Tables, rules: Rules, ids: seq<Id>, source: Id, target: Id)
    requires Resolved(t) && Ascending(ids)
    requires forall l :: l in ids <==> l in t.links && t.links[l].shipper == source
    ensures ShipperProgress(t, t, rules, ids, source, target)
  {
    AwaitingAll(t.links, ids, ShipperOf, source);
    LinksKeptItself(t.links);
    EntriesProgressAtFirst(t, ids, source, target);
    StillPairsAtFirst(OfShippers, t, ids, source, target);
  }

  lemma ShipperProgressStep(
    t: Tables, now: Tables, after: Tables, rules: Rules, ids: seq<Id>, row: Link, source: Id, target: Id)
    requires ShipperProgress(t, now, rules, ids, source, target) && source != target && ids != []
    requires UniqueLinks(t.links) && Unique(now) && Resolved(after) && ids[0] in now.links
    requires now.links[ids[0]].shipper == source && row == now.links[ids[0]].(shipper := target)
    requires after.links == now.links[ids[0] := row] || after.links == now.links - {ids[0]}
    requires LinkPlaced(now.links, now.authorizations, after.links, after.authorizations, ids[0], row)
    requires OneActiveDefault(rules) ==> !TwinBlocked(now.links, now.authorizations, ids[0], row)
    ensures ShipperProgress(t, after, rules, ids[1..], source, target)
  {
    AwaitingStep(t.links, now.links, after.links, ids, ids[1..], ShipperOf, source);
    LinksKeptStep(t.links, now.links, after.links, ids[0], row);
    EntriesProgressStep(t, now, after, ids, ids[1..], row, source, target);
    if OneActiveDefault(rules) {
      StillPairsStep(OfShippers, t, now.links, now.authorizations, after.links, after.authorizations, ids, ids[1..],
        row, source, target);
    }
  }

  /** The links of a shipper go to the target shipper, or are merged into its link to the same recipient
      organization. */
  method MoveShipperLinks(w: World, rules: Rules, source: Id, target: Id, ghost n: Labels, ghost r: Renaming)
    returns (saved: Saved, ghost n': Labels)
    requires Coherent(w.tables, n, r)
    requires source in w.tables.shippers && target in w.tables.shippers && source != target
    requires n.shippers[source] == n.shippers[target]
    ensures saved.Done? ==>
      saved.tables == w.tables.(authorizations := saved.tables.authorizations, links := saved.tables.links)
    ensures saved.Done? ==> Coherent(saved.tables, n', r) && Keeps(ViewOf(n), ViewOf(n'))
    ensures saved.Done? ==> n' == n.(grants := n'.grants, links := n'.links)
    ensures saved.Done? ==> forall l :: l in saved.tables.links ==> saved.tables.links[l].shipper != source
    ensures saved.Done? ==> LinksKept(w.tables.links, saved.tables.links)
    ensures saved.Done? ==> ShippersJoined(w.tables, saved.tables, source, target)
    ensures Permissive(rules) ==> saved.Done?
    ensures saved.Done? && OneActiveDefault(rules)
      ==> !PairsBlocked(OfShippers, w.tables.links, w.tables.authorizations, source, target)
    ensures saved.Refused? ==>
      DefaultsExplain(rules, Owned(w.tables),
                      PairsBlocked(OfShippers, w.tables.links, w.tables.authorizations, source, target))
    ensures saved.Refused? ==> saved.why == Invalid
  {
    n' := n;
    KeepsItself(ViewOf(n));
    var t := w.tables;
    var fetched := t.links;
    var ids := FetchIds(set l | l in fetched && fetched[l].shipper == source);
    CoherentUnique(t, n, r);
    ShipperProgressAtFirst(t, rules, ids, source, target);
    while ids != []
      invariant t == w.tables.(authorizations := t.authorizations, links := t.links)
      invariant Coherent(t, n', r) && n' == n.(grants := n'.grants, links := n'.links) && Keeps(ViewOf(n), ViewOf(n'))
      invariant ShipperProgress(w.tables, t, rules, ids, source, target)
      decreases |ids|
    {
      AwaitingNext(fetched, t.links, ids, ShipperOf, source);
      SameLabel(t, n', ids[0], fetched[ids[0]], r);
      ghost var m := n';
      var row := fetched[ids[0]].(shipper := target);
      CoherentUnique(t, n', r);
      saved, n' := MoveLink(w.(tables := t), rules, ids[0], row, n', r);
      if saved.Refused? {
        ShippersExplained(w.tables, t, n, m, r, rules, ids, row, source, target);
        return;
      }
      KeepsTransitive(ViewOf(n), ViewOf(m), ViewOf(n'));
      ShipperProgressStep(w.tables, t, saved.tables, rules, ids, row, source, target);
      t, ids := saved.tables, ids[1..];
    }
    EntriesProgressAtLast(w.tables, t, source, target);
    if OneActiveDefault(rules) { StillPairsNone(OfShippers, w.tables, t.links, t.authorizations, source, target); }
    AwaitingNone(fetched, t.links, ShipperOf, source);
    saved := Done(t);
  }

  /** A refused round is explained by the pair of links it met. */
  lemma ShippersExplained(
    t: Tables, now: Tables, n: Labels, m: Labels, r: Renaming, rules: Rules, ids: seq<Id>, row: Link,
    source: Id, target: Id)
    requires Coherent(t, n, r) && Coherent(now, m, r) && EntriesProgress(t, now, ids, source, target)
    requires now == t.(authorizations := now.authorizations, links := now.links)
    requires ids != [] && ids[0] in now.links && now.links[ids[0]].shipper == source
    requires row == now.links[ids[0]].(shipper := target)
    requires OneActiveDefault(rules)
      ==> StillPairsBlocked(OfShippers, t, now.links, now.authorizations, ids, source, target)
    requires DefaultsExplain(rules, ContactsAt(now, now.authorizations, ids[0], row.recipientOrganization),
                             TwinBlocked(now.links, now.authorizations, ids[0], row))
    ensures DefaultsExplain(rules, Owned(t), PairsBlocked(OfShippers, t.links, t.authorizations, source, target))
  {
    if Owned(t) { ProgressKeepsOwn(t, now, ids, source, target); }
    if OneActiveDefault(rules) && TwinBlocked(now.links, now.authorizations, ids[0], row) {
      StillPairsSome(OfShippers, t, now.links, now.authorizations, ids, source, target, row);
    }
    ExplainedBy(rules, ContactsAt(now, now.authorizations, ids[0], row.recipientOrganization),
      TwinBlocked(now.links, now.authorizations, ids[0], row), Owned(t),
      PairsBlocked(OfShippers, t.links, t.authorizations, source, target));
  }

  /** The kept row takes over, the other one is deleted. */
  function ShipperFolded(shippers: map<Id, Shipper>, source: Id, target: Id): map<Id, Shipper>
    requires source in shippers && target in shippers
  {
    shippers[target := MergedShipper(shippers[target], shippers[source])] - {source}
  }

  /** A row saved under its own organization: flags and references may change. */
  lemma ShipperUpdated(t: Tables, n: Labels, s: Id, row: Shipper, r: Renaming)
    requires Coherent(t, n, r) && s in t.shippers && row.organization == t.shippers[s].organization
    ensures Coherent(t.(shippers := t.shippers[s := row]), n, r)
  {
    assert Unfold(0);
    assert forall s' :: s' in t.shippers && s' != s ==> !SameShipper(t.shippers, s, s');
    ShipperSaved(t, n, s, row, r);
  }

  /** The body of the loop of `_merge_shippers` when the target has a shipper. */
  method FoldShipper(w: World, rules: Rules, source: Id, target: Id, ghost n: Labels, ghost r: Renaming)
    returns (saved: Saved, ghost n': Labels)
    requires Coherent(w.tables, n, r)
    requires source in w.tables.shippers && target in w.tables.shippers && source != target
    requires n.shippers[source] == n.shippers[target]
    ensures saved.Done? ==> Coherent(saved.tables, n', r) && Keeps(ViewOf(n), ViewOf(n'))
    ensures saved.Done? ==>
      saved.tables == w.tables.(shippers := saved.tables.shippers, links := saved.tables.links,
        authorizations := saved.tables.authorizations)
    ensures saved.Done? ==> saved.tables.shippers == ShipperFolded(w.tables.shippers, source, target)
    ensures saved.Done? ==> LinksKept(w.tables.links, saved.tables.links)
    ensures saved.Done? ==> ShippersJoined(w.tables, saved.tables, source, target)
    ensures Permissive(rules) ==> saved.Done?
    ensures saved.Done? && OneActiveDefault(rules)
      ==> !PairsBlocked(OfShippers, w.tables.links, w.tables.authorizations, source, target)
    ensures saved.Refused? ==>
      DefaultsExplain(rules, Owned(w.tables),
                      PairsBlocked(OfShippers, w.tables.links, w.tables.authorizations, source, target))
    ensures saved.Refused? ==> saved.why == Invalid
  {
    n' := n;
    var t := w.tables;
    var merged := MergedShipper(t.shippers[target], t.shippers[source]);
    if merged != t.shippers[target] {
      saved := SaveShipper(w, rules, target, merged);
      if saved.Refused? {
        OtherReason(rules);
        return;
      }
      ShipperUpdated(t, n, target, merged, r);
      t := saved.tables;
    }
    assert t == w.tables.(shippers := w.tables.shippers[target := merged]);
    saved, n' := MoveShipperLinks(w.(tables := t), rules, source, target, n, r);
    if saved.Refused? { return; }
    ghost var m := n';
    n' := ShipperDropped(saved.tables, n', source, target, r);
    KeepsTransitive(ViewOf(n), ViewOf(m), ViewOf(n'));
    saved := Done(DeleteShipper(saved.tables, source));
  }

  /** Both contacts ship, and some of their links cannot be merged. */
  ghost predicate MergeBlocked(t: Tables, source: Id, target: Id) {
    var s, x := ShipperFor(t.shippers, source), ShipperFor(t.shippers, target);
    s.Some? && x.Some? && PairsBlocked(OfShippers, t.links, t.authorizations, s.value, x.value)
  }

  /** The entries of the registry after the merge of two contacts' shippers. */
  ghost function EntriesAfterShippers(t: Tables, source: Id, target: Id): map<Id, Entry>
    requires LinksResolve(t.links, t.authorizations)
  {
    match (ShipperFor(t.shippers, source), ShipperFor(t.shippers, target))
    case (Some(s), Some(x)) => JoinedEntries(Entries(t.links, t.authorizations), s, x)
    case _ => Entries(t.links, t.authorizations)
  }

  /** Folded like `Coherent`. */
  ghost predicate EntriesAreAfterShippers(t: Tables, after: Tables, source: Id, target: Id) {
    forall u :: Unfold(u) ==>
      && LinksResolve(t.links, t.authorizations) && LinksResolve(after.links, after.authorizations)
      && Entries(after.links, after.authorizations) == EntriesAfterShippers(t, source, target)
  }

  lemma EntriesUnfolded(t: Tables, source: Id, target: Id)
    requires LinksResolve(t.links, t.authorizations)
    requires ShipperFor(t.shippers, source).None? || ShipperFor(t.shippers, target).None?
    ensures forall after: Tables :: after.links == t.links && after.authorizations == t.authorizations ==>
      EntriesAreAfterShippers(t, after, source, target)
  {
  }

  /** The shipper rows after a merge of two contacts. */
  function ShippersMerged(before: map<Id, Shipper>, source: Id, target: Id): map<Id, Shipper> {
    match (ShipperFor(before, source), ShipperFor(before, target))
    case (None, _) => before
    case (Some(s), None) => before[s := before[s].(organization := target)]
    case (Some(s), Some(x)) => if s == x then before else ShipperFolded(before, s, x)
  }

  /** `_merge_shippers` */
  method MergeShippers(
    w: World, rules: Rules, source: Id, target: Id, ghost n: Labels) returns (saved: Saved, ghost n': Labels)
    requires source != target && Coherent(w.tables, n, Renaming(source, target))
    ensures saved.Done? ==> Coherent(saved.tables, n', Renaming(source, target)) && Keeps(ViewOf(n), ViewOf(n'))
    ensures saved.Done? ==>
      saved.tables == w.tables.(shippers := saved.tables.shippers, links := saved.tables.links,
        authorizations := saved.tables.authorizations)
    ensures saved.Done? ==> saved.tables.shippers == ShippersMerged(w.tables.shippers, source, target)
    ensures saved.Done? ==> forall s :: s in saved.tables.shippers ==> saved.tables.shippers[s].organization != source
    ensures ShipperFor(w.tables.shippers, source).None? ==> saved == Done(w.tables)
    ensures saved.Done? ==> LinksKept(w.tables.links, saved.tables.links)
    ensures saved.Done? ==> EntriesAreAfterShippers(w.tables, saved.tables, source, target)
    ensures Permissive(rules) ==> saved.Done?
    ensures saved.Done? && OneActiveDefault(rules) ==> !MergeBlocked(w.tables, source, target)
    ensures saved.Refused? ==>
      DefaultsExplain(rules, Owned(w.tables), MergeBlocked(w.tables, source, target))
    ensures saved.Refused? ==> saved.why == Invalid
  {
    n' := n;
    KeepsItself(ViewOf(n));
    LinksKeptItself(w.tables.links);
    var t := w.tables;
    var targetShipper := ShipperFor(t.shippers, target);
    var all := FetchIds(set s | s in t.shippers && t.shippers[s].organization == source);
    AtMostOneShipper(t, n, all, source, Renaming(source, target));
    var ids := all;
    if all == [] { EntriesUnfolded(w.tables, source, target); }
    while ids != []
      invariant ids == all || ids == []
      invariant ids == all ==> t == w.tables && targetShipper == ShipperFor(t.shippers, target)
      invariant ids == all ==> n' == n
      invariant Coherent(t, n', Renaming(source, target)) && Keeps(ViewOf(n), ViewOf(n'))
      invariant t == w.tables.(shippers := t.shippers, links := t.links, authorizations := t.authorizations)
      invariant ids != all ==> t.shippers == ShippersMerged(w.tables.shippers, source, target)
      invariant LinksKept(w.tables.links, t.links)
      invariant ids == [] ==> EntriesAreAfterShippers(w.tables, t, source, target)
      invariant ids != all && OneActiveDefault(rules) ==> !MergeBlocked(w.tables, source, target)
      decreases |ids|
    {
      var shipper := ids[0];
      saved, n' := MergeShipper(w, rules, shipper, targetShipper, source, target, n);
      if saved.Refused? { return; }
      if targetShipper.None? { targetShipper := Some(shipper); }
      t, ids := saved.tables, ids[1..];
    }
    ShippersGone(w.tables, n, source, target);
    saved := Done(t);
  }

  /** One round of `_merge_shippers`. */
  method MergeShipper(
    w: World, rules: Rules, shipper: Id, targetShipper: Option<Id>, source: Id, target: Id, ghost n: Labels)
    returns (saved: Saved, ghost n': Labels)
    requires source != target && Coherent(w.tables, n, Renaming(source, target))
    requires ShipperFor(w.tables.shippers, source) == Some(shipper)
    requires targetShipper == ShipperFor(w.tables.shippers, target)
    ensures saved.Done? ==> Coherent(saved.tables, n', Renaming(source, target)) && Keeps(ViewOf(n), ViewOf(n'))
    ensures saved.Done? ==>
      saved.tables == w.tables.(shippers := saved.tables.shippers, links := saved.tables.links,
        authorizations := saved.tables.authorizations)
    ensures saved.Done? ==> saved.tables.shippers == ShippersMerged(w.tables.shippers, source, target)
    ensures saved.Done? ==> LinksKept(w.tables.links, saved.tables.links)
    ensures saved.Done? ==> EntriesAreAfterShippers(w.tables, saved.tables, source, target)
    ensures Permissive(rules) ==> saved.Done?
    ensures saved.Done? && OneActiveDefault(rules) ==> !MergeBlocked(w.tables, source, target)
    ensures saved.Refused? ==>
      DefaultsExplain(rules, Owned(w.tables), MergeBlocked(w.tables, source, target))
    ensures saved.Refused? ==> saved.why == Invalid
  {
    var row := w.tables.shippers[shipper];
    if targetShipper.None? {
      n' := n;
      KeepsItself(ViewOf(n));
      LinksKeptItself(w.tables.links);
      EntriesUnfolded(w.tables, source, target);
      ShipperSaved(w.tables, n, shipper, row.(organization := target), Renaming(source, target));
      saved := SaveShipper(w, rules, shipper, row.(organization := target));
      if saved.Refused? { OtherReason(rules); }
    } else {
      ShipperLabel(w.tables, n, shipper, Renaming(source, target));
      ShipperLabel(w.tables, n, targetShipper.value, Renaming(source, target));
      saved, n' := FoldShipper(w, rules, shipper, targetShipper.value, n, Renaming(source, target));
    }
  }

  lemma ShipperLabel(t: Tables, n: Labels, s: Id, r: Renaming)
    requires Coherent(t, n, r) && s in t.shippers
    ensures n.shippers[s] == r.Of(t.shippers[s].organization)
  {
    assert Unfold(0);
  }

  /** Shippers are unique per organization, so the loop over the source's shippers makes at most one round. */
  lemma AtMostOneShipper(t: Tables, n: Labels, ids: seq<Id>, source: Id, r: Renaming)
    requires Coherent(t, n, r) && Ascending(ids)
    requires forall s :: s in ids <==> s in t.shippers && t.shippers[s].organization == source
    ensures |ids| <= 1
    ensures |ids| == 1 <==> ShipperFor(t.shippers, source).Some?
    ensures |ids| == 1 ==> ShipperFor(t.shippers, source) == Some(ids[0])
  {
    assert Unfold(0);
    if |ids| > 1 {
      assert ids[0] in ids && ids[1] in ids;
      assert SameShipper(t.shippers, ids[0], ids[1]);
      assert false;
    }
    var found := ShipperFor(t.shippers, source);
    if |ids| == 1 {
      assert ids[0] in ids;
      assert SameShipper(t.shippers, ids[0], found.value);
    }
  }

  lemma ShippersGone(t: Tables, n: Labels, source: Id, target: Id)
    requires source != target && Coherent(t, n, Renaming(source, target))
    ensures forall s :: s in ShippersMerged(t.shippers, source, target) ==>
      ShippersMerged(t.shippers, source, target)[s].organization != source
  {
    assert Unfold(0);
    var found := ShipperFor(t.shippers, source);
    assert forall s :: s in t.shippers && found.Some? && t.shippers[s].organization == source ==>
      SameShipper(t.shippers, s, found.value);
  }
}
