/** Merging the recipient organizations of two contacts, and exactly when the models' constraints refuse that
    (wms/admin_contacts_merge_service.py). */
module OrganizationMerge {
  import opened Ids
  import opened RegistryTables
  import opened RegistrySteps
  import opened RegistryWrites
  import opened LinkJoin
  import opened AuthorizationMerge
  import opened LinkMerge
  import opened RegistryEntries
  import opened ShipperMerge
  import opened RecipientTransfer

  /** How far the loop over the links of a recipient organization has come. */
  ghost predicate LinksProgress(t: Tables, now: Tables, rules: Rules, ids: seq<Id>, source: Id, target: Id) {
    && Awaiting(t.links, now.links, ids, OrganizationOfLink, source) && LinksKept(t.links, now.links)
    && (ContactsAhead(t, source, target) ==> ContactsAhead(now, source, target))
    && (OneActiveDefault(rules)
        ==> StillPairsBlocked(OfOrganizations, t, now.links, now.authorizations, ids, source, target))
  }

  lemma LinksProgressAtFirst(t: Tables, rules: Rules, ids: seq<Id>, source: Id, target: Id)
    requires Ascending(ids)
    requires forall l :: l in ids <==> l in t.links && t.links[l].recipientOrganization == source
    ensures LinksProgress(t, t, rules, ids, source, target)
  {
    AwaitingAll(t.links, ids, OrganizationOfLink, source);
    LinksKeptItself(t.links);
    StillPairsAtFirst(OfOrganizations, t, ids, source, target);
  }

  lemma LinksProgressStep(
    t: Tables, now: Tables, after: Tables, rules: Rules, ids: seq<Id>, row: Link, source: Id, target: Id)
    requires LinksProgress(t, now, rules, ids, source, target) && source != target && ids != [] && ids[0] in now.links
    requires UniqueLinks(now.links) && after.recipients == now.recipients
    requires now.links[ids[0]].recipientOrganization == source
    requires row == now.links[ids[0]].(recipientOrganization := target)
    requires after.links == now.links[ids[0] := row] || after.links == now.links - {ids[0]}
    requires LinkPlaced(now.links, now.authorizations, after.links, after.authorizations, ids[0], row)
    requires OneActiveDefault(rules) ==> !TwinBlocked(now.links, now.authorizations, ids[0], row)
    ensures LinksProgress(t, after, rules, ids[1..], source, target)
  {
    AwaitingStep(t.links, now.links, after.links, ids, ids[1..], OrganizationOfLink, source);
    LinksKeptStep(t.links, now.links, after.links, ids[0], row);
    if ContactsAhead(now, source, target) { ContactsStayAhead(now, after, ids[0], row, source, target); }
    if OneActiveDefault(rules) {
      StillPairsStep(OfOrganizations, t, now.links, now.authorizations, after.links, after.authorizations, ids,
        ids[1..],
        row, source, target);
    }
  }

  /** The second loop of `_merge_recipient_organizations`. */
  method MoveOrganizationLinks(w: World, rules: Rules, source: Id, target: Id, ghost n: Labels, ghost r: Renaming)
    returns (saved: Saved, ghost n': Labels)
    requires Coherent(w.tables, n, r)
    requires source in w.tables.organizations && target in w.tables.organizations && source != target
    requires n.organizations[source] == n.organizations[target]
    ensures saved.Done? ==>
      saved.tables == w.tables.(authorizations := saved.tables.authorizations, links := saved.tables.links)
    ensures saved.Done? ==> Coherent(saved.tables, n', r) && Keeps(ViewOf(n), ViewOf(n'))
    ensures saved.Done? ==> n' == n.(grants := n'.grants, links := n'.links)
    ensures saved.Done? ==>
      forall l :: l in saved.tables.links ==> saved.tables.links[l].recipientOrganization != source
    ensures saved.Done? ==> LinksKept(w.tables.links, saved.tables.links)
    ensures Permissive(rules) ==> saved.Done?
    ensures saved.Done? && OneActiveDefault(rules)
      ==> !PairsBlocked(OfOrganizations, w.tables.links, w.tables.authorizations, source, target)
    ensures saved.Refused? ==>
      DefaultsExplain(rules, ContactsAhead(w.tables, source, target),
                      PairsBlocked(OfOrganizations, w.tables.links, w.tables.authorizations, source, target))
    ensures saved.Refused? ==> saved.why == Invalid
  {
    n' := n;
    KeepsItself(ViewOf(n));
    var t := w.tables;
    var fetched := t.links;
    var ids := FetchIds(set l | l in fetched && fetched[l].recipientOrganization == source);
    LinksProgressAtFirst(t, rules, ids, source, target);
    while ids != []
      invariant t == w.tables.(authorizations := t.authorizations, links := t.links)
      invariant Coherent(t, n', r) && n' == n.(grants := n'.grants, links := n'.links) && Keeps(ViewOf(n), ViewOf(n'))
      invariant LinksProgress(w.tables, t, rules, ids, source, target)
      decreases |ids|
    {
      AwaitingNext(fetched, t.links, ids, OrganizationOfLink, source);
      SameLabel(t, n', ids[0], fetched[ids[0]], r);
      ghost var m := n';
      var row := fetched[ids[0]].(recipientOrganization := target);
      CoherentUnique(t, n', r);
      saved, n' := MoveLink(w.(tables := t), rules, ids[0], row, n', r);
      if saved.Refused? {
        LinksExplained(w.tables, t, rules, ids, row, source, target);
        return;
      }
      KeepsTransitive(ViewOf(n), ViewOf(m), ViewOf(n'));
      LinksProgressStep(w.tables, t, saved.tables, rules, ids, row, source, target);
      t, ids := saved.tables, ids[1..];
    }
    if OneActiveDefault(rules) { StillPairsNone(OfOrganizations, w.tables, t.links, t.authorizations, source, target); }
    AwaitingNone(fetched, t.links, OrganizationOfLink, source);
    saved := Done(t);
  }

  lemma ContactsStayAhead(t: Tables, after: Tables, l: Id, row: Link, source: Id, target: Id)
    requires ContactsAhead(t, source, target) && source != target && after.recipients == t.recipients
    requires l in t.links && row == t.links[l].(recipientOrganization := target)
    requires LinkPlaced(t.links, t.authorizations, after.links, after.authorizations, l, row)
    ensures ContactsAhead(after, source, target)
  {
    assert Unfold(0);
    forall a | a in after.authorizations && LinkTo(after.links, after.authorizations[a].link, source)
      ensures a in t.authorizations && t.authorizations[a] == after.authorizations[a]
    {
      assert HasLink(after.authorizations, a, after.authorizations[a].link);
    }
  }

  /** A refused round is explained by the pair of links it met. */
  lemma LinksExplained(t: Tables, now: Tables, rules: Rules, ids: seq<Id>, row: Link, source: Id, target: Id)
    requires ids != [] && ids[0] in now.links && now.links[ids[0]].recipientOrganization == source
    requires row == now.links[ids[0]].(recipientOrganization := target)
    requires ContactsAhead(t, source, target) ==> ContactsAhead(now, source, target)
    requires OneActiveDefault(rules)
      ==> StillPairsBlocked(OfOrganizations, t, now.links, now.authorizations, ids, source, target)
    requires DefaultsExplain(rules, ContactsAt(now, now.authorizations, ids[0], row.recipientOrganization),
                             TwinBlocked(now.links, now.authorizations, ids[0], row))
    ensures DefaultsExplain(rules, ContactsAhead(t, source, target),
                            PairsBlocked(OfOrganizations, t.links, t.authorizations, source, target))
  {
    if OneActiveDefault(rules) && TwinBlocked(now.links, now.authorizations, ids[0], row) {
      StillPairsSome(OfOrganizations, t, now.links, now.authorizations, ids, source, target, row);
    }
    ExplainedBy(rules, ContactsAt(now, now.authorizations, ids[0], row.recipientOrganization),
      TwinBlocked(now.links, now.authorizations, ids[0], row), ContactsAhead(t, source, target),
      PairsBlocked(OfOrganizations, t.links, t.authorizations, source, target));
  }

  // ---------------------------------------------------------------- recipient organizations

  /** What the kept recipient organization takes over from the one folded into it. */
  function MergedOrganization(
    target: RecipientOrganization, source: RecipientOrganization): (merged: RecipientOrganization)
    ensures merged.organization == target.organization && merged.destination == target.destination
    ensures merged.isCorrespondent <==> target.isCorrespondent || source.isCorrespondent
    ensures merged.active <==> target.active || source.active
    ensures merged.status.Validated? <==> target.status.Validated? || source.status.Validated?
    ensures !source.status.Validated? ==> merged.status == target.status
  {
    target.(isCorrespondent := if source.isCorrespondent && !target.isCorrespondent then true
      else target.isCorrespondent,
            active := if source.active && !target.active then true else target.active,
            status := if source.status.Validated? && !target.status.Validated? then Validated else target.status)
  }

  function OrganizationFolded(
    organizations: map<Id, RecipientOrganization>, source: Id, target: Id): map<Id, RecipientOrganization>
    requires source in organizations && target in organizations
  {
    organizations[target := MergedOrganization(organizations[target], organizations[source])] - {source}
  }

  lemma OrganizationUpdated(t: Tables, n: Labels, o: Id, other: Id, row: RecipientOrganization, r: Renaming)
    requires Coherent(t, n, r) && o in t.organizations && other in t.organizations
    requires n.organizations[o] == n.organizations[other]
    requires row.organization == t.organizations[o].organization && row.destination == t.organizations[o].destination
    requires row.isCorrespondent ==> t.organizations[o].isCorrespondent || t.organizations[other].isCorrespondent
    ensures Coherent(t.(organizations := t.organizations[o := row]), n, r)
  {
    assert Unfold(0);
    assert forall o' :: o' in t.organizations && o' != o ==> !SameOrganization(t.organizations, o, o');
    if row.isCorrespondent {
      var holder := if t.organizations[o].isCorrespondent then o else other;
      assert t.organizations[holder].isCorrespondent;
      assert t.organizations[holder].destination == t.organizations[o].destination;
    }
    OrganizationSaved(t, n, o, row, r);
  }

  lemma OrganizationLabel(t: Tables, n: Labels, o: Id, r: Renaming)
    requires Coherent(t, n, r) && o in t.organizations
    ensures n.organizations[o] == Pair(r.Of(t.organizations[o].organization), t.organizations[o].destination)
  {
    assert Unfold(0);
  }

  /** The source's row is the active correspondent and still there when the target's row would take something over. */
  ghost predicate CorrespondentBlocked(organizations: map<Id, RecipientOrganization>, source: Id, target: Id) {
    && source in organizations && target in organizations
    && organizations[source].isCorrespondent && organizations[source].active
    && MergedOrganization(organizations[target], organizations[source]) != organizations[target]
  }

  /** Up to the renaming one organization corresponds for a destination, so the source's row is the only obstacle. */
  lemma OnlySourceCorresponds(t: Tables, n: Labels, source: Id, target: Id, r: Renaming, o: Id)
    requires Coherent(t, n, r) && source in t.organizations && target in t.organizations && source != target
    requires n.organizations[source] == n.organizations[target]
    requires MergedOrganization(t.organizations[target], t.organizations[source]).isCorrespondent
    requires o != target && ActiveCorrespondent(t.organizations, o, t.organizations[target].destination)
    ensures o == source
  {
    assert Unfold(0);
    var holder := if t.organizations[target].isCorrespondent then target else source;
    assert !Rivals(t.organizations, r, o, holder);
    assert o != source ==>
      !SameOrganization(t.organizations, o, source) && !SameOrganization(t.organizations, o, target);
    assert !SameOrganization(t.organizations, source, target);
  }

  /** The flags of the kept recipient organization. */
  method TakeOverFlags(w: World, rules: Rules, source: Id, target: Id, ghost n: Labels, ghost r: Renaming)
    returns (saved: Saved)
    requires Coherent(w.tables, n, r)
    requires source in w.tables.organizations && target in w.tables.organizations && source != target
    requires n.organizations[source] == n.organizations[target]
    ensures saved.Done? ==> Coherent(saved.tables, n, r)
    ensures saved.Done? ==> var rows := w.tables.organizations;
      saved.tables == w.tables.(organizations := rows[target := MergedOrganization(rows[target], rows[source])])
    ensures Permissive(rules) ==> saved.Done?
    ensures saved.Done? && OneActiveCorrespondent(rules) ==>
      !CorrespondentBlocked(w.tables.organizations, source, target)
    ensures saved.Refused? && OnlyConstraints(rules) ==>
      !IgnoresCorrespondents(rules) && CorrespondentBlocked(w.tables.organizations, source, target)
    ensures saved.Refused? ==> saved.why == Invalid
  {
    var t := w.tables;
    var merged := MergedOrganization(t.organizations[target], t.organizations[source]);
    OrganizationLabel(t, n, source, r);
    OrganizationLabel(t, n, target, r);
    saved := Done(t);
    if merged != t.organizations[target] {
      saved := SaveOrganization(w, rules, target, merged);
      if saved.Refused? {
        if OnlyConstraints(rules) {
          ghost var o :| o != target && ActiveCorrespondent(t.organizations, o, merged.destination);
          OnlySourceCorresponds(t, n, source, target, r, o);
        }
        return;
      }
      assert t.organizations[source].isCorrespondent && t.organizations[source].active
        ==> ActiveCorrespondent(t.organizations, source, merged.destination);
      OrganizationUpdated(t, n, target, source, merged, r);
    } else {
      assert t.organizations[target := merged] == t.organizations;
    }
  }

  /** Which constraints are in the way of moving what names one recipient organization to another. */
  ghost function ReferencesInTheWay(t: Tables, source: Id, target: Id): Constraints
    requires Resolved(t)
  {
    Constraints(
      PersonsBlocked(t.recipients, Entries(t.links, t.authorizations), source, target),
      exists c, e, a :: SharedStranded(t, c, e, a, source, target),
      false)
  }

  /** Which constraints are in the way of folding one recipient organization into another. */
  ghost function InTheWay(t: Tables, source: Id, target: Id): Constraints
    requires Resolved(t)
  {
    ReferencesInTheWay(t, source, target).(correspondents := CorrespondentBlocked(t.organizations, source, target))
  }

  /** The two loops of `_merge_recipient_organizations` over the rows that name the organization. */
  method MoveReferences(w: World, rules: Rules, source: Id, target: Id, ghost n: Labels, ghost r: Renaming)
    returns (saved: Saved, ghost n': Labels)
    requires Coherent(w.tables, n, r)
    requires source in w.tables.organizations && target in w.tables.organizations && source != target
    requires n.organizations[source] == n.organizations[target]
    ensures saved.Done? ==>
      saved.tables == w.tables.(authorizations := saved.tables.authorizations, recipients := saved.tables.recipients,
        links := saved.tables.links)
    ensures saved.Done? ==> Coherent(saved.tables, n', r) && Keeps(ViewOf(n), ViewOf(n'))
    ensures saved.Done? ==> n' == n.(grants := n'.grants, recipients := n'.recipients, links := n'.links)
    ensures saved.Done? ==>
      forall c :: c in saved.tables.recipients ==> saved.tables.recipients[c].recipientOrganization != source
    ensures saved.Done? ==>
      forall l :: l in saved.tables.links ==> saved.tables.links[l].recipientOrganization != source
    ensures saved.Done? ==> PersonsKept(w.tables.recipients, saved.tables.recipients)
    ensures saved.Done? ==> LinksKept(w.tables.links, saved.tables.links)
    ensures Permissive(rules) ==> saved.Done?
    ensures Decides(rules, Owned(w.tables), saved.Done?, ReferencesInTheWay(w.tables, source, target))
    ensures saved.Refused? ==> saved.why == Invalid
  {
    CoherentUnique(w.tables, n, r);
    saved, n' := MoveOrganizationRecipients(w, rules, source, target, n, r);
    if saved.Refused? {
      PersonsDecide(w.tables, rules, source, target);
      return;
    }
    var t := saved.tables;
    ghost var m := n';
    CoherentUnique(t, n', r);
    saved, n' := MoveOrganizationLinks(w.(tables := t), rules, source, target, n', r);
    LinksDecide(w.tables, t, rules, saved.Done?, source, target);
    if saved.Refused? { return; }
    KeepsTransitive(ViewOf(n), ViewOf(m), ViewOf(n'));
  }

  lemma PersonsDecide(t: Tables, rules: Rules, source: Id, target: Id)
    requires Resolved(t)
    requires OnlyConstraints(rules) && Owned(t) ==>
      !IgnoresContacts(rules) && exists c, e, a :: SharedStranded(t, c, e, a, source, target)
    ensures Decides(rules, Owned(t), false, ReferencesInTheWay(t, source, target))
  {
  }

  lemma LinksDecide(t: Tables, now: Tables, rules: Rules, done: bool, source: Id, target: Id)
    requires Resolved(t) && UniqueLinks(t.links) && source != target
    requires Owned(t) ==> Transferred(t, now, [], source, target)
    requires Resolved(now) && UniqueRecipients(now.recipients) && now.links == t.links
    requires OwnOrganizationOnly(rules) ==> forall c, e, a :: !SharedStranded(t, c, e, a, source, target)
    requires done && OneActiveDefault(rules)
      ==> !PairsBlocked(OfOrganizations, now.links, now.authorizations, source, target)
    requires !done ==>
      DefaultsExplain(rules, ContactsAhead(now, source, target),
                      PairsBlocked(OfOrganizations, now.links, now.authorizations, source, target))
    ensures Decides(rules, Owned(t), done, ReferencesInTheWay(t, source, target))
  {
    if Owned(t) {
      PairsIffPersonsBlocked(t, now, source, target);
      TransferredAhead(t, now, source, target);
    }
    assert Unfold(0);
  }

  /** The body of the loop of `_merge_recipient_organizations` when the target has one at the same destination. */
  method FoldOrganization(w: World, rules: Rules, source: Id, target: Id, ghost n: Labels, ghost r: Renaming)
    returns (saved: Saved, ghost n': Labels)
    requires Coherent(w.tables, n, r)
    requires source in w.tables.organizations && target in w.tables.organizations && source != target
    requires n.organizations[source] == n.organizations[target]
    ensures saved.Done? ==> Coherent(saved.tables, n', r) && Keeps(ViewOf(n), ViewOf(n'))
    ensures saved.Done? ==> saved.tables.shippers == w.tables.shippers && saved.tables.cascaded == w.tables.cascaded
    ensures saved.Done? ==> saved.tables.organizations == OrganizationFolded(w.tables.organizations, source, target)
    ensures saved.Done? ==> PersonsKept(w.tables.recipients, saved.tables.recipients)
    ensures saved.Done? ==> LinksKept(w.tables.links, saved.tables.links)
    ensures Permissive(rules) ==> saved.Done?
    ensures Decides(rules, Owned(w.tables), saved.Done?, InTheWay(w.tables, source, target))
    ensures saved.Refused? ==> saved.why == Invalid
  {
    n' := n;
    saved := TakeOverFlags(w, rules, source, target, n, r);
    if saved.Refused? {
      FlagsDecide(w.tables, rules, source, target);
      return;
    }
    var t := saved.tables;
    saved, n' := MoveReferences(w.(tables := t), rules, source, target, n, r);
    ReferencesDecide(w.tables, t, rules, saved.Done?, source, target);
    if saved.Refused? { return; }
    ghost var m := n';
    n' := OrganizationDropped(saved.tables, n', source, target, r);
    KeepsTransitive(ViewOf(n), ViewOf(m), ViewOf(n'));
    saved := Done(DeleteOrganization(saved.tables, source));
  }

  lemma FlagsStrandNobody(t: Tables, after: Tables, source: Id, target: Id)
    requires after == t.(organizations := after.organizations)
    ensures forall c, e, a :: SharedStranded(t, c, e, a, source, target) <==>
      SharedStranded(after, c, e, a, source, target)
  {
  }

  lemma FlagsDecide(t: Tables, rules: Rules, source: Id, target: Id)
    requires Resolved(t)
    requires OnlyConstraints(rules) ==>
      !IgnoresCorrespondents(rules) && CorrespondentBlocked(t.organizations, source, target)
    ensures Decides(rules, Owned(t), false, InTheWay(t, source, target))
  {
  }

  lemma ReferencesDecide(t: Tables, flagged: Tables, rules: Rules, done: bool, source: Id, target: Id)
    requires Resolved(t) && Resolved(flagged) && flagged == t.(organizations := flagged.organizations)
    requires Decides(rules, Owned(flagged), done, ReferencesInTheWay(flagged, source, target))
    requires OneActiveCorrespondent(rules) ==> !CorrespondentBlocked(t.organizations, source, target)
    ensures Decides(rules, Owned(t), done, InTheWay(t, source, target))
  {
    FlagsStrandNobody(t, flagged, source, target);
    assert Owned(flagged) <==> Owned(t);
    assert ReferencesInTheWay(flagged, source, target) == ReferencesInTheWay(t, source, target);
    assert Unfold(0);
  }

  /** Source and target both are recipient organizations, but not of one destination. */
  predicate DestinationsClash(organizations: map<Id, RecipientOrganization>, source: Id, target: Id) {
    var s, x := OrganizationFor(organizations, source), OrganizationFor(organizations, target);
    s.Some? && x.Some? && organizations[s.value].destination != organizations[x.value].destination
  }

  /** Both contacts receive, and a constraint on correspondents stands in the way. */
  ghost predicate CorrespondentsBlocked(organizations: map<Id, RecipientOrganization>, source: Id, target: Id) {
    var s, x := OrganizationFor(organizations, source), OrganizationFor(organizations, target);
    s.Some? && x.Some? && s.value != x.value && CorrespondentBlocked(organizations, s.value, x.value)
  }

  /** Both contacts receive through one person, who has an authorization from the source. */
  ghost predicate PersonsStranded(t: Tables, source: Id, target: Id) {
    var s, x := OrganizationFor(t.organizations, source), OrganizationFor(t.organizations, target);
    s.Some? && x.Some? && exists c, e, a :: SharedStranded(t, c, e, a, s.value, x.value)
  }

  /** Both contacts receive, and a shipper of both has active defaults that cannot be merged: told from the tables
      before the merge, by the entries that merging the shippers leaves. */
  ghost predicate RecipientsBlocked(t: Tables, source: Id, target: Id)
    requires Resolved(t)
  {
    var s, x := OrganizationFor(t.organizations, source), OrganizationFor(t.organizations, target);
    && s.Some? && x.Some?
    && PersonsBlocked(t.recipients, EntriesAfterShippers(t, source, target), s.value, x.value)
  }

  /** Which constraints are in the way of merging the recipient organizations of two contacts, shippers aside. */
  ghost function OrganizationsInTheWay(t: Tables, source: Id, target: Id): Constraints
    requires Resolved(t)
  {
    var s, x := OrganizationFor(t.organizations, source), OrganizationFor(t.organizations, target);
    if s.None? || x.None? then Constraints(false, false, false) else InTheWay(t, s.value, x.value)
  }

  /** The recipient organization rows after a merge of two contacts. */
  function OrganizationsMerged(
    before: map<Id, RecipientOrganization>, source: Id, target: Id): map<Id, RecipientOrganization>
  {
    match (OrganizationFor(before, source), OrganizationFor(before, target))
    case (None, _) => before
    case (Some(s), None) => before[s := before[s].(organization := target)]
    case (Some(s), Some(x)) => if s == x then before else OrganizationFolded(before, s, x)
  }

  /** What decides whether the recipient organizations of two contacts are merged. Folded like `Coherent`. */
  ghost predicate OrganizationsDecided(rules: Rules, t: Tables, merged: bool, source: Id, target: Id)
    requires Resolved(t)
  {
    forall u :: Unfold(u) ==>
      && (merged ==> !DestinationsClash(t.organizations, source, target))
      && (Permissive(rules) ==> (merged <==> !DestinationsClash(t.organizations, source, target)))
      && (!DestinationsClash(t.organizations, source, target) ==>
            Decides(rules, Owned(t), merged, OrganizationsInTheWay(t, source, target)))
  }

  lemma OrganizationsDecidedExactly(rules: Rules, t: Tables, merged: bool, source: Id, target: Id)
    requires Resolved(t) && OrganizationsDecided(rules, t, merged, source, target)
    ensures Owned(t) ==>
      forall enforced :: Enforces(rules, enforced) ==>
        (merged <==>
           && !DestinationsClash(t.organizations, source, target)
           && !Forbidden(enforced, OrganizationsInTheWay(t, source, target)))
  {
    assert Unfold(0);
    if Owned(t) && !DestinationsClash(t.organizations, source, target) {
      forall enforced | Enforces(rules, enforced)
        ensures merged <==> !Forbidden(enforced, OrganizationsInTheWay(t, source, target))
      {
        DecidedExactly(rules, enforced, merged, OrganizationsInTheWay(t, source, target));
      }
    }
  }

  /** `_merge_recipient_organizations` */
  method MergeRecipientOrganizations(
    w: World, rules: Rules, source: Id, target: Id, ghost n: Labels) returns (saved: Saved, ghost n': Labels)
    requires source != target && Coherent(w.tables, n, Renaming(source, target))
    ensures saved.Done? ==> Coherent(saved.tables, n', Renaming(source, target)) && Keeps(ViewOf(n), ViewOf(n'))
    ensures saved.Done? ==> saved.tables.shippers == w.tables.shippers && saved.tables.cascaded == w.tables.cascaded
    ensures saved.Done? ==> saved.tables.organizations == OrganizationsMerged(w.tables.organizations, source, target)
    ensures saved.Done? ==> PersonsKept(w.tables.recipients, saved.tables.recipients)
    ensures saved.Done? ==>
      forall o :: o in saved.tables.organizations ==> saved.tables.organizations[o].organization != source
    ensures saved.Done? ==> LinksKept(w.tables.links, saved.tables.links)
    ensures OrganizationsDecided(rules, w.tables, saved.Done?, source, target)
    ensures Owned(w.tables) ==>
      forall enforced :: Enforces(rules, enforced) ==>
        (saved.Done? <==>
           && !DestinationsClash(w.tables.organizations, source, target)
           && !Forbidden(enforced, OrganizationsInTheWay(w.tables, source, target)))
    ensures saved.Refused? ==> saved.why in {Invalid, DestinationsDiffer}
    ensures saved.Refused? && saved.why == DestinationsDiffer ==>
      DestinationsClash(w.tables.organizations, source, target)
    ensures OrganizationFor(w.tables.organizations, source).None? ==> saved == Done(w.tables)
  {
    n' := n;
    KeepsItself(ViewOf(n));
    LinksKeptItself(w.tables.links);
    var t := w.tables;
    var targetOrganization := OrganizationFor(t.organizations, target);
    var all := FetchIds(set o | o in t.organizations && t.organizations[o].organization == source);
    AtMostOneOrganization(t, n, all, source, Renaming(source, target));
    var ids := all;
    if all == [] { NothingInTheWay(rules, w.tables, true, source, target); }
    while ids != []
      invariant ids == all || ids == []
      invariant ids == all ==> t == w.tables && targetOrganization == OrganizationFor(t.organizations, target)
      invariant ids == all ==> n' == n
      invariant Coherent(t, n', Renaming(source, target)) && Keeps(ViewOf(n), ViewOf(n'))
      invariant t.shippers == w.tables.shippers && t.cascaded == w.tables.cascaded
      invariant PersonsKept(w.tables.recipients, t.recipients)
      invariant ids != all ==> t.organizations == OrganizationsMerged(w.tables.organizations, source, target)
      invariant LinksKept(w.tables.links, t.links)
      invariant ids == [] ==> OrganizationsDecided(rules, w.tables, true, source, target)
      decreases |ids|
    {
      var organization := ids[0];
      saved, n' := MergeRecipientOrganization(w, rules, organization, targetOrganization, source, target, n);
      if saved.Refused? {
        OrganizationsDecidedExactly(rules, w.tables, false, source, target);
        return;
      }
      if targetOrganization.None? { targetOrganization := Some(organization); }
      t, ids := saved.tables, ids[1..];
    }
    OrganizationsDecidedExactly(rules, w.tables, true, source, target);
    OrganizationsGone(w.tables, n, source, target);
    saved := Done(t);
  }

  /** One round of `_merge_recipient_organizations`. */
  method MergeRecipientOrganization(
    w: World, rules: Rules, organization: Id, targetOrganization: Option<Id>, source: Id, target: Id, ghost n: Labels)
    returns (saved: Saved, ghost n': Labels)
    requires source != target && Coherent(w.tables, n, Renaming(source, target))
    requires OrganizationFor(w.tables.organizations, source) == Some(organization)
    requires targetOrganization == OrganizationFor(w.tables.organizations, target)
    ensures saved.Done? ==> Coherent(saved.tables, n', Renaming(source, target)) && Keeps(ViewOf(n), ViewOf(n'))
    ensures saved.Done? ==> saved.tables.shippers == w.tables.shippers && saved.tables.cascaded == w.tables.cascaded
    ensures saved.Done? ==> saved.tables.organizations == OrganizationsMerged(w.tables.organizations, source, target)
    ensures saved.Done? ==> PersonsKept(w.tables.recipients, saved.tables.recipients)
    ensures saved.Done? ==> LinksKept(w.tables.links, saved.tables.links)
    ensures OrganizationsDecided(rules, w.tables, saved.Done?, source, target)
    ensures saved.Refused? ==> saved.why in {Invalid, DestinationsDiffer}
    ensures saved.Refused? && saved.why == DestinationsDiffer ==>
      DestinationsClash(w.tables.organizations, source, target)
  {
    var row := w.tables.organizations[organization];
    OrganizationLabel(w.tables, n, organization, Renaming(source, target));
    if targetOrganization.None? {
      n' := n;
      KeepsItself(ViewOf(n));
      LinksKeptItself(w.tables.links);
      OrganizationRenamed(w.tables, n, organization, source, target);
      saved := SaveOrganization(w, rules, organization, row.(organization := target));
      NothingInTheWay(rules, w.tables, saved.Done?, source, target);
    } else if w.tables.organizations[targetOrganization.value].destination != row.destination {
      n' := n;
      saved := Refused(DestinationsDiffer);
      assert DestinationsClash(w.tables.organizations, source, target);
    } else {
      OrganizationLabel(w.tables, n, targetOrganization.value, Renaming(source, target));
      saved, n' := FoldOrganization(w, rules, organization, targetOrganization.value, n, Renaming(source, target));
      FoldDecides(rules, w.tables, saved.Done?, organization, targetOrganization.value, source, target);
    }
  }

  lemma FoldDecides(rules: Rules, t: Tables, merged: bool, s: Id, x: Id, source: Id, target: Id)
    requires OrganizationFor(t.organizations, source) == Some(s) && Resolved(t)
    requires OrganizationFor(t.organizations, target) == Some(x)
    requires t.organizations[s].destination == t.organizations[x].destination
    requires Permissive(rules) ==> merged
    requires Decides(rules, Owned(t), merged, InTheWay(t, s, x))
    ensures OrganizationsDecided(rules, t, merged, source, target)
  {
  }

  /** Where not both contacts receive, only a reason other than the constraints is a reason for a refusal. */
  lemma NothingInTheWay(rules: Rules, t: Tables, merged: bool, source: Id, target: Id)
    requires OrganizationFor(t.organizations, source).None? || OrganizationFor(t.organizations, target).None?
    requires Resolved(t) && (!merged ==> !OnlyConstraints(rules))
    ensures OrganizationsDecided(rules, t, merged, source, target)
  {
  }

  /** Up to the renaming one organization corresponds for a destination, and the target has no row. */
  lemma NoOtherCorresponds(t: Tables, n: Labels, o: Id, source: Id, target: Id)
    requires source != target && Coherent(t, n, Renaming(source, target)) && o in t.organizations
    requires t.organizations[o].organization == source && t.organizations[o].isCorrespondent
    requires forall o' :: o' in t.organizations ==> t.organizations[o'].organization != target
    ensures forall o' :: o' != o ==> !ActiveCorrespondent(t.organizations, o', t.organizations[o].destination)
  {
    assert Unfold(0);
    forall o' | o' != o ensures !ActiveCorrespondent(t.organizations, o', t.organizations[o].destination) {
      assert !Rivals(t.organizations, Renaming(source, target), o, o') && !SameOrganization(t.organizations, o, o');
    }
  }

  lemma OrganizationRenamed(t: Tables, n: Labels, o: Id, source: Id, target: Id)
    requires source != target && Coherent(t, n, Renaming(source, target)) && o in t.organizations
    requires t.organizations[o].organization == source
    requires forall o' :: o' in t.organizations ==> t.organizations[o'].organization != target
    ensures Coherent(t.(organizations := t.organizations[o := t.organizations[o].(organization := target)]), n,
      Renaming(source, target))
    ensures !IsSecondCorrespondent(t.organizations, o, t.organizations[o].(organization := target))
  {
    var r := Renaming(source, target);
    if t.organizations[o].isCorrespondent { NoOtherCorresponds(t, n, o, source, target); }
    assert t.organizations[o].isCorrespondent ==> SharesCorrespondent(t.organizations, o, r);
    OrganizationSaved(t, n, o, t.organizations[o].(organization := target), r);
  }

  /** Recipient organizations are unique per organization, so the loop makes at most one round. */
  lemma AtMostOneOrganization(t: Tables, n: Labels, ids: seq<Id>, source: Id, r: Renaming)
    requires Coherent(t, n, r) && Ascending(ids)
    requires forall o :: o in ids <==> o in t.organizations && t.organizations[o].organization == source
    ensures |ids| <= 1
    ensures |ids| == 1 <==> OrganizationFor(t.organizations, source).Some?
    ensures |ids| == 1 ==> OrganizationFor(t.organizations, source) == Some(ids[0])
  {
    assert Unfold(0);
    if |ids| > 1 {
      assert ids[0] in ids && ids[1] in ids;
      assert SameOrganization(t.organizations, ids[0], ids[1]);
      assert false;
    }
    var found := OrganizationFor(t.organizations, source);
    if |ids| == 1 {
      assert ids[0] in ids;
      assert SameOrganization(t.organizations, ids[0], found.value);
    }
  }

  lemma OrganizationsGone(t: Tables, n: Labels, source: Id, target: Id)
    requires source != target && Coherent(t, n, Renaming(source, target))
    ensures forall o :: o in OrganizationsMerged(t.organizations, source, target) ==>
      OrganizationsMerged(t.organizations, source, target)[o].organization != source
  {
    assert Unfold(0);
    var found := OrganizationFor(t.organizations, source);
    assert forall o :: o in t.organizations && found.Some? && t.organizations[o].organization == source ==>
      SameOrganization(t.organizations, o, found.value);
  }

  // ---------------------------------------------------------------- after the shippers

  ghost predicate NamesContact(f: map<Id, Entry>, a: Id, c: Id) {
    a in f && f[a].contact == c
  }

  /** Joining two shippers leaves an entry for each contact that had one. */
  lemma ContactsStayNamed(f: map<Id, Entry>, s: Id, x: Id, c: Id)
    requires s != x
    ensures (exists a :: NamesContact(f, a, c)) <==> exists a :: NamesContact(JoinedEntries(f, s, x), a, c)
  {
    var joined := JoinedEntries(f, s, x);
    if a :| NamesContact(f, a, c) {
      if MeetsTarget(f, s, x, a) {
        var e :| EntryFor(f, e, x, f[a].organization, f[a].contact);
        assert NamesContact(joined, e, c);
      } else {
        assert NamesContact(joined, a, c);
      }
    }
    if a :| NamesContact(joined, a, c) { assert NamesContact(f, a, c); }
  }

  lemma OwnedAfterShippers(t: Tables, between: Tables, source: Id, target: Id)
    requires Owned(t) && Resolved(between) && EntriesAreAfterShippers(t, between, source, target)
    requires between.recipients == t.recipients
    ensures Owned(between)
  {
    assert Unfold(0);
    OwnContactsAreOwnEntries(t);
    OwnContactsAreOwnEntries(between);
  }

  lemma NamedAfterShippers(t: Tables, between: Tables, source: Id, target: Id, c: Id)
    requires EntriesAreAfterShippers(t, between, source, target) && source != target
    ensures (exists a :: a in t.authorizations && t.authorizations[a].recipientContact == c)
      <==> exists a :: a in between.authorizations && between.authorizations[a].recipientContact == c
  {
    assert Unfold(0);
    var f, f' := Entries(t.links, t.authorizations), Entries(between.links, between.authorizations);
    var s, x := ShipperFor(t.shippers, source), ShipperFor(t.shippers, target);
    if s.Some? && x.Some? { ContactsStayNamed(f, s.value, x.value, c); }
    assert forall a :: NamesContact(f, a, c) <==> a in t.authorizations && t.authorizations[a].recipientContact == c;
    var auths := between.authorizations;
    assert forall a :: NamesContact(f', a, c) <==> a in auths && auths[a].recipientContact == c;
    assert (exists a :: NamesContact(f, a, c)) <==> exists a :: NamesContact(f', a, c);
  }

  /** Merging shippers first makes no difference: a shared person has an authorization from the source afterwards
      exactly when it had one before. */
  lemma SharedAfterShippers(t: Tables, between: Tables, source: Id, target: Id, o: Id, p: Id)
    requires Owned(t) && Owned(between) && EntriesAreAfterShippers(t, between, source, target) && source != target
    requires between.recipients == t.recipients && o != p
    ensures (exists c, e, a :: SharedStranded(t, c, e, a, o, p))
      <==> exists c, e, a :: SharedStranded(between, c, e, a, o, p)
  {
    if c, e, a :| SharedStranded(t, c, e, a, o, p) {
      NamedAfterShippers(t, between, source, target, c);
      var b :| b in between.authorizations && between.authorizations[b].recipientContact == c;
      SharedIsStranded(between, c, e, b, o, p);
    }
    if c, e, a :| SharedStranded(between, c, e, a, o, p) {
      NamedAfterShippers(t, between, source, target, c);
      var b :| b in t.authorizations && t.authorizations[b].recipientContact == c;
      SharedIsStranded(t, c, e, b, o, p);
    }
  }

  /** What is in the way after the shippers are merged, told from the tables before. */
  lemma InTheWayAfterShippers(t: Tables, between: Tables, source: Id, target: Id)
    requires Owned(t) && Resolved(between) && EntriesAreAfterShippers(t, between, source, target)
    requires source != target && between.recipients == t.recipients && between.organizations == t.organizations
    ensures Owned(between)
    ensures OrganizationsInTheWay(between, source, target)
      == Constraints(RecipientsBlocked(t, source, target), PersonsStranded(t, source, target),
           CorrespondentsBlocked(t.organizations, source, target))
  {
    OwnedAfterShippers(t, between, source, target);
    var s, x := OrganizationFor(t.organizations, source), OrganizationFor(t.organizations, target);
    if s.Some? && x.Some? {
      SharedAfterShippers(t, between, source, target, s.value, x.value);
      assert Unfold(0);
    }
  }
}
