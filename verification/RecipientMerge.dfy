/** Giving recipient contacts new foreign keys, and merging the recipient contacts of two persons
    (wms/admin_contacts_merge_service.py). */
module RecipientMerge {
  import opened Ids
  import opened RegistryTables
  import opened RegistrySteps
  import opened RegistryWrites
  import opened AuthorizationMerge
  import opened RegistryEntries

  function OrganizationOfRecipient(c: RecipientContact): Id {
    c.recipientOrganization
  }

  function PersonOf(c: RecipientContact): Id {
    c.contact
  }

  // ---------------------------------------------------------------- recipient contacts

  lemma RecipientLabel(t: Tables, n: Labels, c: Id, r: Renaming)
    requires Coherent(t, n, r) && c in t.recipients
    ensures n.recipients[c]
        == Pair(n.organizations[t.recipients[c].recipientOrganization].left, r.Of(t.recipients[c].contact))
  {
    assert Unfold(0);
  }

  ghost predicate SameContact(recipients: map<Id, RecipientContact>, e: Id, row: RecipientContact) {
    && e in recipients && recipients[e].recipientOrganization == row.recipientOrganization
    && recipients[e].contact == row.contact
  }

  ghost predicate MergedAway(t: Tables, after: Tables, c: Id, e: Id, row: RecipientContact) {
    && SameContact(t.recipients, e, row) && after.recipients == t.recipients - {c}
    && OffRecipientsPlaced(t.authorizations, after.authorizations, c, e)
    && RowsRenamed(t.authorizations, after.authorizations, [], c, e)
    && RowsFollow(t.authorizations, after.authorizations, c, e)
  }

  /** The recipient contact took its new foreign keys, or its authorizations went to the one that has them.
      Folded like `Coherent`. */
  ghost predicate RecipientPlaced(t: Tables, after: Tables, c: Id, row: RecipientContact) {
    forall u :: Unfold(u) ==>
      || ((forall e :: !SameContact(t.recipients, e, row)) && after.recipients == t.recipients[c := row]
          && after.authorizations == t.authorizations)
      || (exists e :: MergedAway(t, after, c, e, row))
  }

  /** Why giving a recipient contact new foreign keys was refused, by a validation that only knows the constraints.
      Folded like `Coherent`. */
  ghost predicate MoveExplained(t: Tables, rules: Rules, c: Id, row: RecipientContact) {
    forall u :: Unfold(u) ==>
      OnlyConstraints(rules) ==>
        && !IgnoresContacts(rules)
        && exists e :: SameContact(t.recipients, e, row) && (TargetFits(t, e) ==> exists a :: Stranded(t, a, c, e))
  }

  /** One round of a loop over recipient contacts: the row takes its new foreign keys, or its authorizations go to
      the recipient contact that has them and the row is deleted. */
  method MoveRecipient(w: World, rules: Rules, c: Id, row: RecipientContact, ghost n: Labels, ghost r: Renaming)
    returns (saved: Saved, ghost n': Labels)
    requires Coherent(w.tables, n, r) && c in w.tables.recipients && row.recipientOrganization in w.tables.organizations
    requires row.recipientOrganization != w.tables.recipients[c].recipientOrganization
      || row.contact != w.tables.recipients[c].contact
    requires Pair(n.organizations[row.recipientOrganization].left, r.Of(row.contact)) == n.recipients[c]
    ensures saved.Done?
      ==> saved.tables == w.tables.(authorizations := saved.tables.authorizations,
        recipients := saved.tables.recipients)
    ensures saved.Done? ==>
      saved.tables.recipients in {w.tables.recipients[c := row], w.tables.recipients - {c}}
    ensures saved.Done? ==> RecipientPlaced(w.tables, saved.tables, c, row)
    ensures saved.Done? ==> Coherent(saved.tables, n', r) && Keeps(ViewOf(n), ViewOf(n'))
    ensures saved.Done? ==> n' == n.(grants := n'.grants, recipients := n'.recipients)
    ensures Permissive(rules) ==> saved.Done?
    ensures saved.Done? && OwnOrganizationOnly(rules)
      ==> forall e, a :: SameContact(w.tables.recipients, e, row) ==> !Stranded(w.tables, a, c, e)
    ensures saved.Refused? ==> MoveExplained(w.tables, rules, c, row)
    ensures saved.Refused? ==> saved.why == Invalid
  {
    n' := n;
    KeepsItself(ViewOf(n));
    var t := w.tables;
    var held := set e |
      e in t.recipients && t.recipients[e].recipientOrganization == row.recipientOrganization
        && t.recipients[e].contact == row.contact;
    if held == {} {
      assert forall e :: SameContact(t.recipients, e, row) ==> e in held;
      assert forall e :: e in t.recipients && e != c ==> !SameContact(t.recipients, e, row);
      saved := SaveRecipient(w, rules, c, row);
      RecipientSaved(t, n, c, row, r);
    } else {
      var existing :| existing in held;
      RecipientLabel(t, n, existing, r);
      assert SameContact(t.recipients, existing, row);
      OneSameContact(t, n, existing, row, r);
      saved, n' := MergeAuthorizedContacts(w, rules, c, existing, n, r);
      if saved.Refused? { return; }
      ghost var m := n';
      n' := RecipientDropped(saved.tables, n', c, existing, r);
      KeepsTransitive(ViewOf(n), ViewOf(m), ViewOf(n'));
      saved := Done(DeleteRecipient(saved.tables, c));
      assert MergedAway(t, saved.tables, c, existing, row);
    }
  }

  lemma OneSameContact(t: Tables, n: Labels, e: Id, row: RecipientContact, r: Renaming)
    requires Coherent(t, n, r) && SameContact(t.recipients, e, row)
    ensures forall k :: SameContact(t.recipients, k, row) ==> k == e
  {
    assert Unfold(0);
    assert forall k :: SameContact(t.recipients, k, row) ==> SameRecipient(t.recipients, k, e);
  }

  // ---------------------------------------------------------------- persons

  /** Recipient contacts only ever change their person, from the source to the target. Folded like `Coherent`. */
  ghost predicate PersonsRenamed(
    before: map<Id, RecipientContact>, after: map<Id, RecipientContact>, source: Id, target: Id)
  {
    forall u :: Unfold(u) ==>
      forall c :: c in after ==>
        && c in before && after[c].active == before[c].active
        && after[c].recipientOrganization == before[c].recipientOrganization
        && (after[c].contact == before[c].contact || (before[c].contact == source && after[c].contact == target))
  }

  lemma PersonsRenamedStep(
    before: map<Id, RecipientContact>, rows: map<Id, RecipientContact>, after: map<Id, RecipientContact>, c: Id,
    row: RecipientContact, source: Id, target: Id)
    requires PersonsRenamed(before, rows, source, target) && source != target
    requires c in rows && rows[c].contact == source && row == rows[c].(contact := target)
    requires after == rows[c := row] || after == rows - {c}
    ensures PersonsRenamed(before, after, source, target)
  {
    assert Unfold(0);
  }

  /** The two rows of two persons belong to one organization, so the models' constraints refuse no move. */
  lemma NeverExplained(t: Tables, rules: Rules, c: Id, row: RecipientContact)
    requires Owned(t) && c in t.recipients && row.recipientOrganization == t.recipients[c].recipientOrganization
    requires MoveExplained(t, rules, c, row)
    ensures !OnlyConstraints(rules)
  {
    assert Unfold(0);
    forall e, a | SameContact(t.recipients, e, row) ensures TargetFits(t, e) && !Stranded(t, a, c, e) {
    }
  }

  lemma OwnedAfterRename(t: Tables, after: Tables, c: Id, row: RecipientContact)
    requires Owned(t) && Resolved(after) && after.links == t.links && RecipientPlaced(t, after, c, row)
    requires c in t.recipients && row.recipientOrganization == t.recipients[c].recipientOrganization
    ensures Owned(after)
  {
    assert Unfold(0);
    if exists e :: MergedAway(t, after, c, e, row) {
      var e :| MergedAway(t, after, c, e, row);
      assert forall a :: a in after.authorizations ==> a in t.authorizations;
    }
  }

  /** How far the loop over the recipient contacts of a person has come. */
  ghost predicate RenameProgress(t: Tables, now: Tables, ids: seq<Id>, source: Id, target: Id) {
    && Awaiting(t.recipients, now.recipients, ids, PersonOf, source)
    && PersonsRenamed(t.recipients, now.recipients, source, target)
    && (Owned(t) ==> Owned(now))
  }

  lemma RenameProgressAtFirst(t: Tables, ids: seq<Id>, source: Id, target: Id)
    requires Ascending(ids) && forall c :: c in ids <==> c in t.recipients && t.recipients[c].contact == source
    ensures RenameProgress(t, t, ids, source, target)
  {
    AwaitingAll(t.recipients, ids, PersonOf, source);
  }

  lemma RenameProgressStep(
    t: Tables, now: Tables, after: Tables, ids: seq<Id>, row: RecipientContact, source: Id, target: Id)
    requires RenameProgress(t, now, ids, source, target) && source != target && ids != [] && ids[0] in now.recipients
    requires row == now.recipients[ids[0]].(contact := target) && Resolved(after) && after.links == now.links
    requires after.recipients == now.recipients[ids[0] := row] || after.recipients == now.recipients - {ids[0]}
    requires RecipientPlaced(now, after, ids[0], row)
    ensures RenameProgress(t, after, ids[1..], source, target)
  {
    AwaitingNext(t.recipients, now.recipients, ids, PersonOf, source);
    AwaitingStep(t.recipients, now.recipients, after.recipients, ids, ids[1..], PersonOf, source);
    PersonsRenamedStep(t.recipients, now.recipients, after.recipients, ids[0], row, source, target);
    if Owned(now) { OwnedAfterRename(now, after, ids[0], row); }
  }

  /** The loop of `_merge_person_references`. */
  method MergePersonRecipients(
    w: World, rules: Rules, source: Id, target: Id, ghost n: Labels) returns (saved: Saved, ghost n': Labels)
    requires source != target && Coherent(w.tables, n, Renaming(source, target))
    ensures saved.Done? ==>
      saved.tables == w.tables.(authorizations := saved.tables.authorizations, recipients := saved.tables.recipients)
    ensures saved.Done? ==> Coherent(saved.tables, n', Renaming(source, target)) && Keeps(ViewOf(n), ViewOf(n'))
    ensures saved.Done? ==> forall c :: c in saved.tables.recipients ==> saved.tables.recipients[c].contact != source
    ensures saved.Done? ==> PersonsRenamed(w.tables.recipients, saved.tables.recipients, source, target)
    ensures Permissive(rules) ==> saved.Done?
    ensures OnlyConstraints(rules) && Owned(w.tables) ==> saved.Done?
    ensures saved.Refused? ==> saved.why == Invalid
  {
    n' := n;
    KeepsItself(ViewOf(n));
    var t := w.tables;
    var fetched := t.recipients;
    var ids := FetchIds(set c | c in fetched && fetched[c].contact == source);
    RenameProgressAtFirst(t, ids, source, target);
    while ids != []
      invariant t == w.tables.(authorizations := t.authorizations, recipients := t.recipients)
      invariant Coherent(t, n', Renaming(source, target)) && n' == n.(grants := n'.grants, recipients := n'.recipients)
      invariant Keeps(ViewOf(n), ViewOf(n'))
      invariant RenameProgress(w.tables, t, ids, source, target)
      decreases |ids|
    {
      AwaitingNext(fetched, t.recipients, ids, PersonOf, source);
      RecipientLabel(t, n', ids[0], Renaming(source, target));
      ghost var m := n';
      var row := fetched[ids[0]].(contact := target);
      saved, n' := MoveRecipient(w.(tables := t), rules, ids[0], row, n', Renaming(source, target));
      if saved.Refused? {
        if Owned(t) { NeverExplained(t, rules, ids[0], row); }
        return;
      }
      KeepsTransitive(ViewOf(n), ViewOf(m), ViewOf(n'));
      RenameProgressStep(w.tables, t, saved.tables, ids, row, source, target);
      t, ids := saved.tables, ids[1..];
    }
    AwaitingNone(fetched, t.recipients, PersonOf, source);
    saved := Done(t);
  }
}
