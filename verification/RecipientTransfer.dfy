/** The recipient contacts of one organization go to another, each keeping its person
    (wms/admin_contacts_merge_service.py). */
module RecipientTransfer {
  import opened Ids
  import opened RegistryTables
  import opened RegistrySteps
  import opened RegistryWrites
  import opened AuthorizationMerge
  import opened LinkMerge
  import opened RegistryEntries
  import opened RecipientMerge

  // ---------------------------------------------------------------- shared persons

  /** A person receives for both organizations, and an authorization of the source's row cannot move to the target's. */
  ghost predicate SharedStranded(t: Tables, c: Id, e: Id, a: Id, source: Id, target: Id) {
    && c in t.recipients && e in t.recipients
    && t.recipients[c].recipientOrganization == source && t.recipients[e].recipientOrganization == target
    && t.recipients[c].contact == t.recipients[e].contact && Stranded(t, a, c, e)
  }

  /** Where authorizations name contacts of their links' organizations, any authorization of the source's row is one. */
  lemma SharedIsStranded(t: Tables, c: Id, e: Id, a: Id, source: Id, target: Id)
    requires Owned(t) && source != target && c in t.recipients && e in t.recipients
    requires t.recipients[c].recipientOrganization == source && t.recipients[e].recipientOrganization == target
    requires t.recipients[c].contact == t.recipients[e].contact
    requires a in t.authorizations && t.authorizations[a].recipientContact == c
    ensures SharedStranded(t, c, e, a, source, target)
  {
  }

  /** Stranded authorizations are stranded until their row is reached. Folded like `Coherent`. */
  ghost predicate StillStranded(t: Tables, now: Tables, ids: seq<Id>, source: Id, target: Id) {
    forall u :: Unfold(u) ==>
      forall c, e, a :: SharedStranded(t, c, e, a, source, target) ==>
        c in ids && SharedStranded(now, c, e, a, source, target)
  }

  lemma StillStrandedAtFirst(t: Tables, ids: seq<Id>, source: Id, target: Id)
    requires forall c :: c in t.recipients && t.recipients[c].recipientOrganization == source ==> c in ids
    ensures StillStranded(t, t, ids, source, target)
  {
  }

  lemma StillStrandedNone(t: Tables, now: Tables, source: Id, target: Id)
    requires StillStranded(t, now, [], source, target)
    ensures forall c, e, a :: !SharedStranded(t, c, e, a, source, target)
  {
    assert Unfold(0);
  }

  lemma StillStrandedStep(
    t: Tables, now: Tables, after: Tables, ids: seq<Id>, rest: seq<Id>, row: RecipientContact, source: Id, target: Id)
    requires StillStranded(t, now, ids, source, target) && UniqueRecipients(now.recipients) && source != target
    requires ids != [] && rest == ids[1..] && ids[0] in now.recipients
    requires now.recipients[ids[0]].recipientOrganization == source
    requires row == now.recipients[ids[0]].(recipientOrganization := target)
    requires RecipientPlaced(now, after, ids[0], row) && after.links == now.links
    requires forall e, a :: SameContact(now.recipients, e, row) ==> !Stranded(now, a, ids[0], e)
    ensures StillStranded(t, after, rest, source, target)
  {
    assert Unfold(0);
    var x := ids[0];
    forall c, e, a | SharedStranded(t, c, e, a, source, target)
      ensures c in rest && SharedStranded(after, c, e, a, source, target)
    {
      assert SharedStranded(now, c, e, a, source, target);
      assert c == x ==> SameContact(now.recipients, e, row);
      assert !SameRecipient(now.recipients, c, x);
      OtherSharedKept(now, after, x, row, c, e, a, source, target);
    }
  }

  lemma OtherSharedKept(
    t: Tables, after: Tables, x: Id, row: RecipientContact, c: Id, e: Id, a: Id, source: Id, target: Id)
    requires source != target && x in t.recipients && t.recipients[x].recipientOrganization == source
    requires row == t.recipients[x].(recipientOrganization := target)
    requires RecipientPlaced(t, after, x, row) && after.links == t.links
    requires SharedStranded(t, c, e, a, source, target) && c != x && t.recipients[c].contact != t.recipients[x].contact
    ensures SharedStranded(after, c, e, a, source, target)
  {
    assert Unfold(0);
    var l := t.authorizations[a].link;
    if !forall y :: !SameContact(t.recipients, y, row) {
      var y :| MergedAway(t, after, x, y, row);
      assert InSlot(t.authorizations, a, l, c);
      assert InSlot(after.authorizations, a, l, c);
      forall b | b in after.authorizations
        ensures !(after.authorizations[b].link == l && after.authorizations[b].recipientContact == e)
      {
        assert InSlot(after.authorizations, b, l, e) <==> InSlot(t.authorizations, b, l, e);
      }
    }
  }

  // ---------------------------------------------------------------- what the loop leaves, in closed form

  /** The recipient contact of the source that the loop has visited. */
  ghost predicate Passed(recipients: map<Id, RecipientContact>, ids: seq<Id>, source: Id, c: Id) {
    c in recipients && recipients[c].recipientOrganization == source && c !in ids
  }

  ghost predicate ContactTransferred(t: Tables, now: Tables, ids: seq<Id>, source: Id, target: Id, c: Id) {
    c in now.recipients ==>
      && c in t.recipients
      && now.recipients[c]
           == if Passed(t.recipients, ids, source, c) then t.recipients[c].(recipientOrganization := target)
              else t.recipients[c]
  }

  /** An authorization follows its person to a recipient contact of the target. */
  ghost predicate RowTransferred(t: Tables, now: Tables, ids: seq<Id>, source: Id, target: Id, a: Id) {
    && (a in now.authorizations <==> a in t.authorizations)
    && (a in t.authorizations ==>
          var c, d := t.authorizations[a].recipientContact, now.authorizations[a].recipientContact;
          && now.authorizations[a] == t.authorizations[a].(recipientContact := d)
          && c in t.recipients && d in t.recipients && t.recipients[d].contact == t.recipients[c].contact
          && (if Passed(t.recipients, ids, source, c)
              then d in now.recipients && now.recipients[d].recipientOrganization == target
              else d == c))
  }

  /** How far the recipient contacts of the source have been transferred. Folded like `Coherent`. */
  ghost predicate Transferred(t: Tables, now: Tables, ids: seq<Id>, source: Id, target: Id) {
    forall u :: Unfold(u) ==>
      && (forall c :: ContactTransferred(t, now, ids, source, target, c))
      && (forall a :: RowTransferred(t, now, ids, source, target, a))
  }

  lemma TransferredAtFirst(t: Tables, ids: seq<Id>, source: Id, target: Id)
    requires Resolved(t)
    requires forall c :: c in t.recipients && t.recipients[c].recipientOrganization == source ==> c in ids
    ensures Transferred(t, t, ids, source, target)
  {
  }

  /** The target's row for the person of the next recipient contact has no authorization but its own. */
  lemma TargetUntouched(
    t: Tables, now: Tables, ids: seq<Id>, row: RecipientContact, source: Id, target: Id, e: Id)
    requires Owned(t) && UniqueRecipients(t.recipients) && source != target
    requires Transferred(t, now, ids, source, target) && now.links == t.links
    requires ids != [] && ids[0] in now.recipients && ids[0] in t.recipients
    requires now.recipients[ids[0]] == t.recipients[ids[0]] && t.recipients[ids[0]].recipientOrganization == source
    requires row == t.recipients[ids[0]].(recipientOrganization := target) && SameContact(now.recipients, e, row)
    ensures e in t.recipients && t.recipients[e].recipientOrganization == target && e != ids[0]
    ensures NoneMeets(now.authorizations, ids[0], e) && TargetFits(now, e)
    ensures forall a :: Stranded(now, a, ids[0], e) ==> SharedStranded(t, ids[0], e, a, source, target)
  {
    assert Unfold(0);
    var x := ids[0];
    assert x in ids && ContactTransferred(t, now, ids, source, target, e);
    forall c | Passed(t.recipients, ids, source, c) ensures t.recipients[c].contact != row.contact {
      assert !SameRecipient(t.recipients, c, x);
    }
    forall a | a in now.authorizations
      ensures a in t.authorizations && now.authorizations[a].link == t.authorizations[a].link
      ensures now.authorizations[a].recipientContact in {x, e}
        ==> now.authorizations[a].recipientContact == t.authorizations[a].recipientContact
    {
      assert RowTransferred(t, now, ids, source, target, a);
    }
  }

  lemma TransferredStep(
    t: Tables, now: Tables, after: Tables, ids: seq<Id>, rest: seq<Id>, row: RecipientContact, source: Id, target: Id)
    requires Owned(t) && UniqueRecipients(t.recipients) && source != target
    requires Transferred(t, now, ids, source, target) && now.links == t.links
    requires Awaiting(t.recipients, now.recipients, ids, OrganizationOfRecipient, source)
    requires ids != [] && rest == ids[1..] && ids[0] in t.recipients
    requires row == t.recipients[ids[0]].(recipientOrganization := target)
    requires RecipientPlaced(now, after, ids[0], row)
    ensures Transferred(t, after, rest, source, target)
  {
    AwaitingNext(t.recipients, now.recipients, ids, OrganizationOfRecipient, source);
    var x := ids[0];
    assert x in ids && x !in rest && forall c :: c in ids <==> c == x || c in rest;
    assert forall c :: Passed(t.recipients, rest, source, c) <==> Passed(t.recipients, ids, source, c) || c == x;
    assert Unfold(0);
    if forall e :: !SameContact(now.recipients, e, row) {
      PassedAlone(t, now, after, ids, rest, row, source, target);
    } else {
      var e :| MergedAway(now, after, x, e, row);
      TargetUntouched(t, now, ids, row, source, target, e);
      PassedBeside(t, now, after, ids, rest, row, source, target, e);
    }
  }

  lemma PassedAlone(
    t: Tables, now: Tables, after: Tables, ids: seq<Id>, rest: seq<Id>, row: RecipientContact, source: Id, target: Id)
    requires Transferred(t, now, ids, source, target) && source != target && ids != [] && ids[0] in ids
    requires forall c :: Passed(t.recipients, rest, source, c) <==> Passed(t.recipients, ids, source, c) || c == ids[0]
    requires ids[0] in t.recipients && ids[0] in now.recipients && now.recipients[ids[0]] == t.recipients[ids[0]]
    requires row == t.recipients[ids[0]].(recipientOrganization := target)
    requires after.recipients == now.recipients[ids[0] := row] && after.authorizations == now.authorizations
    ensures Transferred(t, after, rest, source, target)
  {
    assert Unfold(0);
    forall c ensures ContactTransferred(t, after, rest, source, target, c) {
      assert ContactTransferred(t, now, ids, source, target, c);
    }
    forall a ensures RowTransferred(t, after, rest, source, target, a) {
      assert RowTransferred(t, now, ids, source, target, a);
    }
  }

  lemma PassedBeside(
    t: Tables, now: Tables, after: Tables, ids: seq<Id>, rest: seq<Id>, row: RecipientContact, source: Id, target: Id,
    e: Id)
    requires Transferred(t, now, ids, source, target) && source != target && ids != [] && ids[0] in ids
    requires forall c :: Passed(t.recipients, rest, source, c) <==> Passed(t.recipients, ids, source, c) || c == ids[0]
    requires ids[0] in t.recipients && ids[0] in now.recipients && now.recipients[ids[0]] == t.recipients[ids[0]]
    requires row == t.recipients[ids[0]].(recipientOrganization := target)
    requires t.recipients[ids[0]].recipientOrganization == source && e in t.recipients && e != ids[0]
    requires MergedAway(now, after, ids[0], e, row) && NoneMeets(now.authorizations, ids[0], e)
    ensures Transferred(t, after, rest, source, target)
  {
    assert Unfold(0);
    assert ContactTransferred(t, now, ids, source, target, e);
    forall c ensures ContactTransferred(t, after, rest, source, target, c) {
      assert ContactTransferred(t, now, ids, source, target, c);
    }
    forall a ensures RowTransferred(t, after, rest, source, target, a) {
      assert RowTransferred(t, now, ids, source, target, a);
    }
  }

  /** No recipient contact changed its person or its activity. Folded like `Coherent`. */
  ghost predicate PersonsKept(before: map<Id, RecipientContact>, after: map<Id, RecipientContact>) {
    forall u :: Unfold(u) ==>
      forall c :: c in after ==>
        c in before && after[c].contact == before[c].contact && after[c].active == before[c].active
  }

  lemma PersonsKeptStep(
    before: map<Id, RecipientContact>, rows: map<Id, RecipientContact>, after: map<Id, RecipientContact>, c: Id,
    row: RecipientContact)
    requires PersonsKept(before, rows) && c in rows && row.contact == rows[c].contact && row.active == rows[c].active
    requires after == rows[c := row] || after == rows - {c}
    ensures PersonsKept(before, after)
  {
    assert Unfold(0);
  }
  /** How far the loop has come. */
  ghost predicate TransferProgress(t: Tables, now: Tables, rules: Rules, ids: seq<Id>, source: Id, target: Id) {
    && Awaiting(t.recipients, now.recipients, ids, OrganizationOfRecipient, source)
    && PersonsKept(t.recipients, now.recipients)
    && (OwnOrganizationOnly(rules) ==> StillStranded(t, now, ids, source, target))
    && (Owned(t) ==> Transferred(t, now, ids, source, target))
  }

  lemma TransferProgressAtFirst(t: Tables, rules: Rules, ids: seq<Id>, source: Id, target: Id)
    requires Resolved(t) && Ascending(ids)
    requires forall c :: c in ids <==> c in t.recipients && t.recipients[c].recipientOrganization == source
    ensures TransferProgress(t, t, rules, ids, source, target)
  {
    AwaitingAll(t.recipients, ids, OrganizationOfRecipient, source);
    StillStrandedAtFirst(t, ids, source, target);
    TransferredAtFirst(t, ids, source, target);
  }

  lemma TransferProgressStep(
    t: Tables, now: Tables, after: Tables, rules: Rules, ids: seq<Id>, row: RecipientContact, source: Id, target: Id)
    requires TransferProgress(t, now, rules, ids, source, target) && source != target && ids != []
    requires UniqueRecipients(t.recipients) && UniqueRecipients(now.recipients) && ids[0] in t.recipients
    requires row == t.recipients[ids[0]].(recipientOrganization := target)
    requires after.recipients == now.recipients[ids[0] := row] || after.recipients == now.recipients - {ids[0]}
    requires RecipientPlaced(now, after, ids[0], row) && now.links == t.links && after.links == now.links
    requires OwnOrganizationOnly(rules) ==>
      forall e, a :: SameContact(now.recipients, e, row) ==> !Stranded(now, a, ids[0], e)
    ensures TransferProgress(t, after, rules, ids[1..], source, target)
  {
    AwaitingNext(t.recipients, now.recipients, ids, OrganizationOfRecipient, source);
    AwaitingStep(t.recipients, now.recipients, after.recipients, ids, ids[1..], OrganizationOfRecipient, source);
    PersonsKeptStep(t.recipients, now.recipients, after.recipients, ids[0], row);
    if OwnOrganizationOnly(rules) { StillStrandedStep(t, now, after, ids, ids[1..], row, source, target); }
    if Owned(t) { TransferredStep(t, now, after, ids, ids[1..], row, source, target); }
  }

  lemma TransferProgressAtLast(t: Tables, now: Tables, rules: Rules, source: Id, target: Id)
    requires TransferProgress(t, now, rules, [], source, target)
    ensures forall c :: c in now.recipients ==> now.recipients[c].recipientOrganization != source
    ensures OwnOrganizationOnly(rules) ==> forall c, e, a :: !SharedStranded(t, c, e, a, source, target)
  {
    AwaitingNone(t.recipients, now.recipients, OrganizationOfRecipient, source);
    if OwnOrganizationOnly(rules) { StillStrandedNone(t, now, source, target); }
  }

  /** A refused round met a person with an authorization that cannot move. */
  lemma StrandedExplained(
    t: Tables, now: Tables, rules: Rules, ids: seq<Id>, row: RecipientContact, source: Id, target: Id)
    requires UniqueRecipients(t.recipients) && source != target
    requires TransferProgress(t, now, rules, ids, source, target) && now.links == t.links
    requires ids != [] && ids[0] in now.recipients && ids[0] in t.recipients
    requires now.recipients[ids[0]] == t.recipients[ids[0]] && t.recipients[ids[0]].recipientOrganization == source
    requires row == t.recipients[ids[0]].(recipientOrganization := target)
    requires MoveExplained(now, rules, ids[0], row)
    ensures OnlyConstraints(rules) && Owned(t) ==>
      !IgnoresContacts(rules) && exists c, e, a :: SharedStranded(t, c, e, a, source, target)
  {
    assert Unfold(0);
    if OnlyConstraints(rules) && Owned(t) {
      var e :| SameContact(now.recipients, e, row) && (TargetFits(now, e) ==> exists a :: Stranded(now, a, ids[0], e));
      TargetUntouched(t, now, ids, row, source, target, e);
      var a :| Stranded(now, a, ids[0], e);
      assert SharedStranded(t, ids[0], e, a, source, target);
    }
  }

  /** The first loop of `_merge_recipient_organizations`. */
  method MoveOrganizationRecipients(w: World, rules: Rules, source: Id, target: Id, ghost n: Labels, ghost r: Renaming)
    returns (saved: Saved, ghost n': Labels)
    requires Coherent(w.tables, n, r)
    requires source in w.tables.organizations && target in w.tables.organizations && source != target
    requires n.organizations[source] == n.organizations[target]
    ensures saved.Done?
      ==> saved.tables == w.tables.(authorizations := saved.tables.authorizations,
        recipients := saved.tables.recipients)
    ensures saved.Done? ==> Coherent(saved.tables, n', r) && Keeps(ViewOf(n), ViewOf(n'))
    ensures saved.Done? ==> n' == n.(grants := n'.grants, recipients := n'.recipients)
    ensures saved.Done? ==>
      forall c :: c in saved.tables.recipients ==> saved.tables.recipients[c].recipientOrganization != source
    ensures saved.Done? ==> PersonsKept(w.tables.recipients, saved.tables.recipients)
    ensures Permissive(rules) ==> saved.Done?
    ensures saved.Done? && OwnOrganizationOnly(rules) ==>
      forall c, e, a :: !SharedStranded(w.tables, c, e, a, source, target)
    ensures saved.Done? && Owned(w.tables) ==> Transferred(w.tables, saved.tables, [], source, target)
    ensures saved.Refused? && OnlyConstraints(rules) && Owned(w.tables) ==>
      !IgnoresContacts(rules) && exists c, e, a :: SharedStranded(w.tables, c, e, a, source, target)
    ensures saved.Refused? ==> saved.why == Invalid
  {
    n' := n;
    KeepsItself(ViewOf(n));
    var t := w.tables;
    var fetched := t.recipients;
    var ids := FetchIds(set c | c in fetched && fetched[c].recipientOrganization == source);
    CoherentUnique(t, n, r);
    TransferProgressAtFirst(t, rules, ids, source, target);
    while ids != []
      invariant t == w.tables.(authorizations := t.authorizations, recipients := t.recipients)
      invariant Coherent(t, n', r) && n' == n.(grants := n'.grants, recipients := n'.recipients)
      invariant Keeps(ViewOf(n), ViewOf(n'))
      invariant TransferProgress(w.tables, t, rules, ids, source, target)
      decreases |ids|
    {
      AwaitingNext(fetched, t.recipients, ids, OrganizationOfRecipient, source);
      RecipientLabel(t, n', ids[0], r);
      CoherentUnique(t, n', r);
      ghost var m := n';
      var row := fetched[ids[0]].(recipientOrganization := target);
      saved, n' := MoveRecipient(w.(tables := t), rules, ids[0], row, n', r);
      if saved.Refused? {
        StrandedExplained(w.tables, t, rules, ids, row, source, target);
        return;
      }
      KeepsTransitive(ViewOf(n), ViewOf(m), ViewOf(n'));
      TransferProgressStep(w.tables, t, saved.tables, rules, ids, row, source, target);
      t, ids := saved.tables, ids[1..];
    }
    TransferProgressAtLast(w.tables, t, rules, source, target);
    saved := Done(t);
  }

  // ---------------------------------------------------------------- two active defaults, told through persons

  ghost predicate SamePerson(recipients: map<Id, RecipientContact>, c: Id, d: Id) {
    c in recipients && d in recipients && recipients[c].contact == recipients[d].contact
  }

  /** An active entry of the source organization that comes before `a` and is for the person of `e`. */
  ghost predicate PersonActivates(
    recipients: map<Id, RecipientContact>, f: map<Id, Entry>, b: Id, e: Id, a: Id, source: Id)
  {
    && b in f && e in f && b < a && f[b].shipper == f[e].shipper && f[b].organization == source && f[b].active
    && SamePerson(recipients, f[b].contact, f[e].contact)
  }

  /** The default of the same shipper for the target organization is active by the time `a` is reached. */
  ghost predicate PersonActiveByThen(
    recipients: map<Id, RecipientContact>, f: map<Id, Entry>, e: Id, a: Id, source: Id, target: Id)
  {
    && a in f && e in f && f[e].shipper == f[a].shipper && f[e].organization == target && f[e].isDefault
    && (f[e].active || exists b :: PersonActivates(recipients, f, b, e, a, source))
  }

  /** A shipper has an active default for the source organization, none for the target organization and the same
      person, and its default for the target organization is active by then. */
  ghost predicate PersonBlocked(
    recipients: map<Id, RecipientContact>, f: map<Id, Entry>, a: Id, source: Id, target: Id)
  {
    && a in f && f[a].organization == source && f[a].isDefault && f[a].active
    && (forall e | e in f && f[e].shipper == f[a].shipper && f[e].organization == target ::
          !SamePerson(recipients, f[e].contact, f[a].contact))
    && exists e :: PersonActiveByThen(recipients, f, e, a, source, target)
  }

  /** Some shipper of both organizations has active defaults that cannot be merged. */
  ghost predicate PersonsBlocked(recipients: map<Id, RecipientContact>, f: map<Id, Entry>, source: Id, target: Id) {
    exists a :: PersonBlocked(recipients, f, a, source, target)
  }

  /** Once persons have followed, two authorizations for the organizations share a recipient contact exactly when they
      are for one person. */
  lemma SameContactIffSamePerson(t: Tables, now: Tables, source: Id, target: Id, a: Id, b: Id)
    requires Owned(t) && Transferred(t, now, [], source, target) && Resolved(now) && UniqueRecipients(now.recipients)
    requires source != target && a in t.authorizations && b in t.authorizations
    requires t.links[t.authorizations[a].link].recipientOrganization in {source, target}
    requires t.links[t.authorizations[b].link].recipientOrganization in {source, target}
    ensures a in now.authorizations && b in now.authorizations
    ensures now.authorizations[a].recipientContact == now.authorizations[b].recipientContact
      <==> SamePerson(t.recipients, t.authorizations[a].recipientContact, t.authorizations[b].recipientContact)
  {
    assert Unfold(0);
    assert RowTransferred(t, now, [], source, target, a) && RowTransferred(t, now, [], source, target, b);
    var c, d := now.authorizations[a].recipientContact, now.authorizations[b].recipientContact;
    assert ContactTransferred(t, now, [], source, target, c) && ContactTransferred(t, now, [], source, target, d);
    assert now.recipients[c].contact == now.recipients[d].contact ==> SameRecipient(now.recipients, c, d);
  }

  /** The rows of a shipper's links to the two organizations, read as entries of the tables before. */
  lemma RowsAreEntries(t: Tables, now: Tables, source: Id, target: Id, l: Id, k: Id)
    requires Owned(t) && Transferred(t, now, [], source, target) && Resolved(now) && UniqueRecipients(now.recipients)
    requires source != target && UniqueLinks(t.links) && LinksResolve(t.links, t.authorizations)
    requires l in t.links && k in t.links && t.links[l].shipper == t.links[k].shipper
    requires t.links[l].recipientOrganization == source && t.links[k].recipientOrganization == target
    ensures now.authorizations.Keys == t.authorizations.Keys
    ensures forall b :: b in t.authorizations ==>
      now.authorizations[b] == t.authorizations[b].(recipientContact := now.authorizations[b].recipientContact)
    ensures var f := Entries(t.links, t.authorizations);
      forall b :: b in f && f[b].shipper == t.links[l].shipper && f[b].organization in {source, target} ==>
        t.authorizations[b].link == if f[b].organization == source then l else k
    ensures var f := Entries(t.links, t.authorizations);
      forall b, e :: b in f && e in f && f[b].organization in {source, target} && f[e].organization in {source, target}
        ==> (now.authorizations[b].recipientContact == now.authorizations[e].recipientContact
             <==> SamePerson(t.recipients, f[b].contact, f[e].contact))
  {
    var f := Entries(t.links, t.authorizations);
    forall b ensures b in now.authorizations <==> b in t.authorizations { SameRows(t, now, source, target, b); }
    forall b | b in t.authorizations
      ensures now.authorizations[b]
        == t.authorizations[b].(recipientContact := now.authorizations[b].recipientContact)
    {
      SameRows(t, now, source, target, b);
    }
    forall b | b in f && f[b].shipper == t.links[l].shipper && f[b].organization in {source, target}
      ensures t.authorizations[b].link == if f[b].organization == source then l else k
    {
      assert SameLink(t.links, t.authorizations[b].link, l) || SameLink(t.links, t.authorizations[b].link, k);
    }
    forall b, e | b in f && e in f && f[b].organization in {source, target} && f[e].organization in {source, target}
      ensures now.authorizations[b].recipientContact == now.authorizations[e].recipientContact
        <==> SamePerson(t.recipients, f[b].contact, f[e].contact)
    {
      SameContactIffSamePerson(t, now, source, target, b, e);
    }
  }

  /** Blocked links after the transfer are blocked persons before it. */
  lemma BlockedIffPersonBlocked(t: Tables, now: Tables, source: Id, target: Id, l: Id, k: Id, a: Id)
    requires Owned(t) && Transferred(t, now, [], source, target) && Resolved(now) && UniqueRecipients(now.recipients)
    requires source != target && UniqueLinks(t.links) && LinksResolve(t.links, t.authorizations)
    requires l in t.links && k in t.links && t.links[l].shipper == t.links[k].shipper
    requires t.links[l].recipientOrganization == source && t.links[k].recipientOrganization == target
    ensures Blocked(now.authorizations, a, l, k) <==>
      && a in t.authorizations && t.authorizations[a].link == l
      && PersonBlocked(t.recipients, Entries(t.links, t.authorizations), a, source, target)
  {
    var f := Entries(t.links, t.authorizations);
    RowsAreEntries(t, now, source, target, l, k);
    if a in t.authorizations && t.authorizations[a].link == l {
      assert forall e, b :: e in f && t.authorizations[e].link == k ==>
        (ActivatesBefore(now.authorizations, b, e, a, l) <==> PersonActivates(t.recipients, f, b, e, a, source));
      forall e ensures ActiveByThen(now.authorizations, e, a, l, k)
        <==> PersonActiveByThen(t.recipients, f, e, a, source, target)
      {
      }
    }
  }

  lemma SameRows(t: Tables, now: Tables, source: Id, target: Id, a: Id)
    requires Transferred(t, now, [], source, target)
    ensures a in now.authorizations <==> a in t.authorizations
    ensures a in t.authorizations ==>
      now.authorizations[a] == t.authorizations[a].(recipientContact := now.authorizations[a].recipientContact)
  {
    assert Unfold(0);
    assert RowTransferred(t, now, [], source, target, a);
  }

  /** Some links are blocked after the transfer exactly when some person is blocked before it. */
  lemma PairsIffPersonsBlocked(t: Tables, now: Tables, source: Id, target: Id)
    requires Owned(t) && Transferred(t, now, [], source, target) && Resolved(now) && UniqueRecipients(now.recipients)
    requires source != target && UniqueLinks(t.links) && LinksResolve(t.links, t.authorizations)
    requires now.links == t.links
    ensures PairsBlocked(OfOrganizations, now.links, now.authorizations, source, target)
      <==> PersonsBlocked(t.recipients, Entries(t.links, t.authorizations), source, target)
  {
    var f := Entries(t.links, t.authorizations);
    if l, k, a :| PairBlocked(OfOrganizations, now.links, now.authorizations, l, k, a, source, target) {
      BlockedIffPersonBlocked(t, now, source, target, l, k, a);
    }
    if a :| PersonBlocked(t.recipients, f, a, source, target) {
      var e :| PersonActiveByThen(t.recipients, f, e, a, source, target);
      var l, k := t.authorizations[a].link, t.authorizations[e].link;
      BlockedIffPersonBlocked(t, now, source, target, l, k, a);
      assert PairBlocked(OfOrganizations, now.links, now.authorizations, l, k, a, source, target);
    }
  }

  ghost predicate LinkTo(links: map<Id, Link>, l: Id, organization: Id) {
    l in links && links[l].recipientOrganization == organization
  }

  /** After the transfer the source's links are authorized for contacts of the target. */
  ghost predicate ContactsAhead(t: Tables, source: Id, target: Id) {
    forall a | a in t.authorizations && LinkTo(t.links, t.authorizations[a].link, source) ::
      && t.authorizations[a].recipientContact in t.recipients
      && t.recipients[t.authorizations[a].recipientContact].recipientOrganization == target
  }

  lemma TransferredAhead(t: Tables, now: Tables, source: Id, target: Id)
    requires Owned(t) && Transferred(t, now, [], source, target) && now.links == t.links
    ensures ContactsAhead(now, source, target)
  {
    assert Unfold(0);
    forall a | a in now.authorizations && LinkTo(now.links, now.authorizations[a].link, source)
      ensures now.authorizations[a].recipientContact in now.recipients
        && now.recipients[now.authorizations[a].recipientContact].recipientOrganization == target
    {
      assert RowTransferred(t, now, [], source, target, a);
    }
  }
}
