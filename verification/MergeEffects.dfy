/** What a merge of two contacts leaves of the rows that name them, row by row and column by column. */
module MergeEffects {
  import opened Ids
  import opened ContactBook
  import opened ContactDetails
  import opened RegistryTables
  import opened RegistryWrites
  import opened ContactMerge

  // ---------------------------------------------------------------- merging persons

  /** No shipper has the source as its default contact any more: it has the target instead. Nothing else of any shipper
      changes. */
  lemma DefaultContactsFollow(before: Snapshot, after: Snapshot, source: Id, target: Id, s: Id)
    requires MergedInto(before, after, source, target) && IsPerson(before.contacts, source)
    ensures s in after.tables.shippers <==> s in before.tables.shippers
    ensures s in before.tables.shippers ==>
      var row, now := before.tables.shippers[s], after.tables.shippers[s];
      && now.defaultContact != Some(source)
      && (row.defaultContact == Some(source) ==> now.defaultContact == Some(target))
      && (row.defaultContact != Some(source) ==> now.defaultContact == row.defaultContact)
      && now.organization == row.organization && now.status == row.status
      && now.canSendToAll == row.canSendToAll && now.active == row.active
  {
  }

  /** No destination has the source as its correspondent any more: it has the target instead. */
  lemma CorrespondentsFollow(before: Snapshot, after: Snapshot, source: Id, target: Id, d: Id)
    requires MergedInto(before, after, source, target) && IsPerson(before.contacts, source)
    ensures d in after.destinations <==> d in before.destinations
    ensures d in before.destinations ==>
      var row, now := before.destinations[d], after.destinations[d];
      && now.correspondent != source
      && (row.correspondent == source ==> now.correspondent == target)
      && (row.correspondent != source ==> now.correspondent == row.correspondent)
      && now.active == row.active
  {
  }

  /** A recipient contact of the source becomes one of the target, unless that has one in the same recipient
      organization; the others stay as they are. */
  lemma RecipientsFollow(before: Snapshot, after: Snapshot, source: Id, target: Id, c: Id)
    requires MergedInto(before, after, source, target) && IsPerson(before.contacts, source)
    requires c in after.tables.recipients
    ensures c in before.tables.recipients
    ensures var row, now := before.tables.recipients[c], after.tables.recipients[c];
      && now.contact == (if row.contact == source then target else row.contact)
      && now.recipientOrganization == row.recipientOrganization && now.active == row.active
  {
    assert Unfold(0);
  }

  // ---------------------------------------------------------------- merging organizations

  /** The members of the source are members of the target, everybody else stays where they were, and nothing else of any
      contact but the two changes. */
  lemma MembersFollow(before: Snapshot, after: Snapshot, source: Id, target: Id, c: Id)
    requires MergedInto(before, after, source, target) && IsOrganization(before.contacts, source)
    requires c != source && c != target
    ensures c in after.contacts <==> c in before.contacts
    ensures c in before.contacts ==>
      var row, now := before.contacts[c], after.contacts[c];
      && now.organization != Some(source)
      && (row.organization == Some(source) ==> now.organization == Some(target))
      && (row.organization != Some(source) ==> now.organization == row.organization)
      && now.kind == row.kind && now.name == row.name && now.useOrganizationAddress == row.useOrganizationAddress
      && now.active == row.active && now.texts == row.texts
  {
  }

  lemma OnlyShipper(t: Tables, s: Id)
    requires Sound(t) && s in t.shippers
    ensures ShipperFor(t.shippers, t.shippers[s].organization) == Some(s)
  {
    var found := ShipperFor(t.shippers, t.shippers[s].organization);
    assert SameShipper(t.shippers, s, found.value);
  }

  lemma OnlyOrganization(t: Tables, o: Id)
    requires Sound(t) && o in t.organizations
    ensures OrganizationFor(t.organizations, t.organizations[o].organization) == Some(o)
  {
    var found := OrganizationFor(t.organizations, t.organizations[o].organization);
    assert SameOrganization(t.organizations, o, found.value);
  }

  /** A shipper of neither contact stays as it is, and no shipper is new. */
  lemma OtherShippersStay(before: Snapshot, after: Snapshot, source: Id, target: Id, s: Id)
    requires MergedInto(before, after, source, target) && IsOrganization(before.contacts, source)
    ensures s in after.tables.shippers ==> s in before.tables.shippers
    ensures s in before.tables.shippers && before.tables.shippers[s].organization !in {source, target} ==>
      s in after.tables.shippers && after.tables.shippers[s] == before.tables.shippers[s]
  {
  }

  /** The shipper of one of them alone is the target's afterwards, otherwise as it was. */
  lemma OneShipperFollows(before: Snapshot, after: Snapshot, source: Id, target: Id, s: Id)
    requires MergedInto(before, after, source, target) && IsOrganization(before.contacts, source)
    requires Sound(before.tables) && s in before.tables.shippers
    requires before.tables.shippers[s].organization in {source, target}
    requires forall x :: x in before.tables.shippers && before.tables.shippers[x].organization in {source, target} ==>
      x == s
    ensures s in after.tables.shippers
    ensures var row, now := before.tables.shippers[s], after.tables.shippers[s];
      && now.organization == target && now.defaultContact == row.defaultContact && now.status == row.status
      && now.canSendToAll == row.canSendToAll && now.active == row.active
  {
    OnlyShipper(before.tables, s);
  }

  /** Of two shippers the target's stays and takes over what it lacks; the source's goes. */
  lemma TwoShippersBecomeOne(before: Snapshot, after: Snapshot, source: Id, target: Id, s: Id, x: Id)
    requires MergedInto(before, after, source, target) && IsOrganization(before.contacts, source) && source != target
    requires Sound(before.tables) && s in before.tables.shippers && x in before.tables.shippers
    requires before.tables.shippers[s].organization == source && before.tables.shippers[x].organization == target
    ensures s !in after.tables.shippers && x in after.tables.shippers
    ensures var theirs, own, now := before.tables.shippers[s], before.tables.shippers[x], after.tables.shippers[x];
      && now.organization == target
      && (own.defaultContact.Some? ==> now.defaultContact == own.defaultContact)
      && (own.defaultContact.None? ==> now.defaultContact == theirs.defaultContact)
      && (theirs.status.Validated? ==> now.status.Validated?)
      && (!theirs.status.Validated? ==> now.status == own.status)
      && (now.canSendToAll <==> own.canSendToAll || theirs.canSendToAll)
      && (now.active <==> own.active || theirs.active)
  {
    OnlyShipper(before.tables, s);
    OnlyShipper(before.tables, x);
  }

  /** A recipient organization of neither contact stays as it is, and none is new. */
  lemma OtherReceiversStay(before: Snapshot, after: Snapshot, source: Id, target: Id, o: Id)
    requires MergedInto(before, after, source, target) && IsOrganization(before.contacts, source)
    ensures o in after.tables.organizations ==> o in before.tables.organizations
    ensures o in before.tables.organizations && before.tables.organizations[o].organization !in {source, target} ==>
      o in after.tables.organizations && after.tables.organizations[o] == before.tables.organizations[o]
  {
  }

  lemma OneReceiverFollows(before: Snapshot, after: Snapshot, source: Id, target: Id, o: Id)
    requires MergedInto(before, after, source, target) && IsOrganization(before.contacts, source)
    requires Sound(before.tables) && o in before.tables.organizations
    requires before.tables.organizations[o].organization in {source, target}
    requires forall p ::
      p in before.tables.organizations && before.tables.organizations[p].organization in {source, target} ==> p == o
    ensures o in after.tables.organizations
    ensures var row, now := before.tables.organizations[o], after.tables.organizations[o];
      && now.organization == target && now.destination == row.destination && now.status == row.status
      && now.isCorrespondent == row.isCorrespondent && now.active == row.active
  {
    OnlyOrganization(before.tables, o);
  }

  /** Of two recipient organizations the target's stays, at its destination, with the flags of both; the source's
      goes. */
  lemma TwoReceiversBecomeOne(before: Snapshot, after: Snapshot, source: Id, target: Id, o: Id, p: Id)
    requires MergedInto(before, after, source, target) && IsOrganization(before.contacts, source) && source != target
    requires Sound(before.tables) && o in before.tables.organizations && p in before.tables.organizations
    requires before.tables.organizations[o].organization == source
    requires before.tables.organizations[p].organization == target
    ensures o !in after.tables.organizations && p in after.tables.organizations
    ensures var theirs, own, now :=
        before.tables.organizations[o], before.tables.organizations[p], after.tables.organizations[p];
      && now.organization == target && now.destination == own.destination
      && (now.isCorrespondent <==> own.isCorrespondent || theirs.isCorrespondent)
      && (now.active <==> own.active || theirs.active)
      && (theirs.status.Validated? ==> now.status.Validated?)
      && (!theirs.status.Validated? ==> now.status == own.status)
  {
    OnlyOrganization(before.tables, o);
    OnlyOrganization(before.tables, p);
  }

  // ---------------------------------------------------------------- merging any two contacts

  /** The target keeps kind and name; its flags only rise, and its organization is its own or else the source's. The
      source becomes inactive and changes in nothing else. */
  lemma BothContacts(before: Snapshot, after: Snapshot, source: Id, target: Id)
    requires MergedInto(before, after, source, target)
    ensures source in before.contacts && target in before.contacts && source in after.contacts
    ensures target in after.contacts
    ensures var own, theirs, now := before.contacts[target], before.contacts[source], after.contacts[target];
      && now.kind == own.kind && now.name == own.name && (now.active <==> own.active || theirs.active)
      && (now.useOrganizationAddress <==>
            own.useOrganizationAddress || (theirs.kind.Person? && theirs.useOrganizationAddress))
      && (own.organization.Some? ==> now.organization == own.organization)
      && (own.organization.None? ==> now.organization == theirs.organization)
    ensures var row, now := before.contacts[source], after.contacts[source];
      && !now.active && now.kind == row.kind && now.name == row.name && now.organization == row.organization
      && now.useOrganizationAddress == row.useOrganizationAddress && now.texts == row.texts
  {
  }

  /** The target keeps its texts and takes over those it lacks. */
  lemma TargetTexts(before: Snapshot, after: Snapshot, source: Id, target: Id, f: Field, text: string)
    requires MergedInto(before, after, source, target)
    ensures target in after.contacts
    ensures HasText(after.contacts[target], f, text) <==>
      || HasText(before.contacts[target], f, text)
      || ((forall own :: !HasText(before.contacts[target], f, own)) && HasText(before.contacts[source], f, text))
  {
    var merged := after.contacts[target].(organization := before.contacts[target].organization);
    TextsFilledIn(merged, before.contacts[target], before.contacts[source], f, text);
    assert HasText(after.contacts[target], f, text) <==> HasText(merged, f, text);
  }

  /** The target can do what either could. */
  lemma TargetCapabilities(before: Snapshot, after: Snapshot, source: Id, target: Id, capability: CapabilityType)
    requires MergedInto(before, after, source, target)
    ensures HasCapability(after.capabilities, target, capability) <==>
      HasCapability(before.capabilities, target, capability) || HasCapability(before.capabilities, source, capability)
  {
    HasIffActive(after.capabilities, target, capability);
    HasIffActive(before.capabilities, target, capability);
    HasIffActive(before.capabilities, source, capability);
  }

  /** The target keeps its addresses, and each of the source's is found among them up to blanks. */
  lemma TargetAddresses(before: Snapshot, after: Snapshot, source: Id, target: Id, b: Id) returns (a: Id)
    requires MergedInto(before, after, source, target) && Steady(after.contacts[target])
    requires b in before.addresses && before.addresses[b].contact in {source, target}
    ensures a in after.addresses && after.addresses[a].contact == target
    ensures Identity(after.addresses[a].postal) == Identity(before.addresses[b].postal)
    ensures before.addresses[b].contact == target ==> a == b && after.addresses[a] == before.addresses[b]
  {
    var own, theirs, now := AddressesOf(before.addresses, target), AddressesOf(before.addresses, source),
        AddressesOf(after.addresses, target);
    if before.addresses[b].contact == target {
      ExtendedParts(own, theirs, now, target);
      assert b in own;
      a := b;
      assert a in now;
    } else {
      assert b in theirs;
      a := AddressArrives(own, theirs, now, b);
      assert a in now;
    }
  }

  // ---------------------------------------------------------------- the guards

  /** Two different contacts may be merged, as far as the guards of the code go, if they are of one kind, persons are
      not members of different organizations, and organizations do not receive at different destinations. */
  lemma MergeableIff(contacts: Contacts, t: Tables, source: Id, target: Id)
    requires source in contacts && target in contacts && source != target && Sound(t)
    ensures Mergeable(contacts, t, source, target) <==>
      && contacts[source].kind == contacts[target].kind
      && (contacts[source].kind.Person? ==>
            forall a, b | contacts[source].organization == Some(a) && contacts[target].organization == Some(b) ::
              a == b)
      && (contacts[source].kind.Organization? ==>
            forall o, p | ReceivesAs(t, o, source) && ReceivesAs(t, p, target) ::
              t.organizations[o].destination == t.organizations[p].destination)
  {
    var o, p := OrganizationFor(t.organizations, source), OrganizationFor(t.organizations, target);
    forall x: Id | ReceivesAs(t, x, source) ensures o == Some(x) { OnlyOrganization(t, x); }
    forall x: Id | ReceivesAs(t, x, target) ensures p == Some(x) { OnlyOrganization(t, x); }
    assert o.Some? ==> ReceivesAs(t, o.value, source);
    assert p.Some? ==> ReceivesAs(t, p.value, target);
  }

  ghost predicate ReceivesAs(t: Tables, o: Id, contact: Id) {
    o in t.organizations && t.organizations[o].organization == contact
  }
}
