/** `merge_contacts`: one transaction over contacts, addresses, capabilities and the shipment-party registry. */
module ContactMerge {
  import opened Ids
  import opened ContactBook
  import opened ContactDetails
  import opened RegistryTables
  import opened RegistrySteps
  import opened RegistryWrites
  import opened AuthorizationMerge
  import opened LinkMerge
  import opened RegistryEntries
  import opened ShipperMerge
  import opened RecipientMerge
  import opened RecipientTransfer
  import opened OrganizationMerge

  /** Registry rows name contacts of the right kind: organizations ship and receive, persons are recipient contacts. */
  ghost predicate Typed(t: Tables, contacts: Contacts) {
    && (forall s :: s in t.shippers ==> IsOrganization(contacts, t.shippers[s].organization))
    && (forall o :: o in t.organizations ==> IsOrganization(contacts, t.organizations[o].organization))
    && (forall c :: c in t.recipients ==> IsPerson(contacts, t.recipients[c].contact))
  }

  predicate IsOrganization(contacts: Contacts, c: Id) {
    c in contacts && contacts[c].kind.Organization?
  }

  predicate IsPerson(contacts: Contacts, c: Id) {
    c in contacts && contacts[c].kind.Person?
  }

  /** The members of the source become members of the target. */
  function MembersMoved(contacts: Contacts, source: Id, target: Id): Contacts {
    map c | c in contacts ::
      if contacts[c].organization == Some(source) then contacts[c].(organization := Some(target)) else contacts[c]
  }

  /** Shippers whose default contact is the source get the target. */
  function DefaultContactsMoved(shippers: map<Id, Shipper>, source: Id, target: Id): map<Id, Shipper> {
    map s | s in shippers ::
      if shippers[s].defaultContact == Some(source) then shippers[s].(defaultContact := Some(target)) else shippers[s]
  }

  /** Destinations whose correspondent is the source get the target. */
  function CorrespondentsMoved(destinations: map<Id, Destination>, source: Id, target: Id): map<Id, Destination> {
    map d | d in destinations ::
      if destinations[d].correspondent == source then destinations[d].(correspondent := target) else destinations[d]
  }

  /** Two persons of two different organizations are not merged. */
  predicate OrganizationsClash(contacts: Contacts, source: Id, target: Id)
    requires source in contacts && target in contacts
  {
    && contacts[source].organization.Some? && contacts[target].organization.Some?
    && contacts[source].organization != contacts[target].organization
  }

  /** What a refused merge leaves exactly as it was. */
  datatype Snapshot = Snapshot(
    contacts: Contacts, addresses: Addresses, capabilities: map<Id, Capability>, tables: Tables,
    destinations: map<Id, Destination>)

  datatype Outcome = Merged | Failed(why: Refusal)

  /** The contacts after a merge: the source is inactive, the target is filled in, members follow. */
  ghost predicate ContactsMerged(before: Contacts, after: Contacts, source: Id, target: Id) {
    && source in before && target in before && source != target && after.Keys == before.Keys
    && after[source] == before[source].(active := false)
    && FilledIn(after[target].(organization := before[target].organization), before[target], before[source])
    && after[target].organization
      == (if before[target].organization.Some? then before[target].organization else before[source].organization)
    && (forall c :: c in before && c != source && c != target ==>
          after[c] == if before[source].kind.Organization? then MembersMoved(before, source, target)[c] else before[c])
  }

  /** What a successful merge of two contacts makes of everything. */
  ghost predicate MergedInto(before: Snapshot, after: Snapshot, source: Id, target: Id) {
    && ContactsMerged(before.contacts, after.contacts, source, target)
    && RelationMerged(before.tables, after.tables, source, target)
    && CapabilitiesMerged(before.capabilities, after.capabilities, source, target)
    && AddressesMerged(before, after, source, target)
    && (if before.contacts[source].kind.Organization? then
          && after.destinations == before.destinations
          && LinksKept(before.tables.links, after.tables.links)
          && PersonsKept(before.tables.recipients, after.tables.recipients)
          && after.tables.shippers == ShippersMerged(before.tables.shippers, source, target)
          && after.tables.organizations == OrganizationsMerged(before.tables.organizations, source, target)
        else
          && after.destinations == CorrespondentsMoved(before.destinations, source, target)
          && PersonsRenamed(before.tables.recipients, after.tables.recipients, source, target)
          && after.tables.shippers == DefaultContactsMoved(before.tables.shippers, source, target)
          && after.tables.organizations == before.tables.organizations && after.tables.links == before.tables.links)
  }

  ghost predicate CapabilitiesMerged(before: map<Id, Capability>, after: map<Id, Capability>, source: Id, target: Id) {
    && ActiveCapabilities(after, target) == ActiveCapabilities(before, target) + ActiveCapabilities(before, source)
    && (forall c :: c != target ==> ActiveCapabilities(after, c) == ActiveCapabilities(before, c))
  }

  /** A target that follows an organization's address gets that address instead, whenever it is saved. */
  ghost predicate AddressesMerged(before: Snapshot, after: Snapshot, source: Id, target: Id) {
    var own, theirs, now := AddressesOf(before.addresses, target), AddressesOf(before.addresses, source),
        AddressesOf(after.addresses, target);
    && (target in after.contacts && Steady(after.contacts[target]) ==>
          Extended(own, theirs, now, target) && Identities(now) == Identities(own) + Identities(theirs))
    && (forall c :: c != source && c != target ==>
          HandedOn(before.contacts, before.addresses, after.addresses, target, c))
    && (source in before.contacts && before.contacts[source].kind.Organization? ==>
          AddressesOf(after.addresses, source) == theirs)
  }

  /** No row, and no member, is left to move. */
  ghost predicate NothingToMove(s: Snapshot, source: Id) {
    && (forall c :: c in s.contacts ==> s.contacts[c].organization != Some(source))
    && ShipperFor(s.tables.shippers, source).None? && OrganizationFor(s.tables.organizations, source).None?
  }

  /** Two organizations that another merge would leave as they are. */
  ghost predicate Settled(s: Snapshot, source: Id, target: Id) {
    && IsOrganization(s.contacts, source) && IsOrganization(s.contacts, target) && source != target
    && NothingToCarry(s.contacts, s.addresses, s.capabilities, source, target)
    && NothingToMove(s, source) && !s.contacts[source].active
  }

  /** What the guards of a merge look at. */
  predicate Mergeable(contacts: Contacts, tables: Tables, source: Id, target: Id)
    requires source in contacts && target in contacts
  {
    || source == target
    || (&& contacts[source].kind == contacts[target].kind
        && (if contacts[source].kind.Organization? then !DestinationsClash(tables.organizations, source, target)
            else !OrganizationsClash(contacts, source, target)))
  }

  /** Which of the models' constraints are in the way of merging the rows of two organizations, told from the tables
      before the merge. */
  ghost function InTheWayOfRows(t: Tables, source: Id, target: Id): Constraints
    requires Resolved(t)
  {
    Constraints(
      MergeBlocked(t, source, target) || RecipientsBlocked(t, source, target),
      PersonsStranded(t, source, target),
      CorrespondentsBlocked(t.organizations, source, target))
  }

  /** Nothing is ever in the way of merging persons. */
  ghost function InTheWayOf(contacts: Contacts, t: Tables, source: Id, target: Id): Constraints
    requires Resolved(t)
  {
    if IsOrganization(contacts, source) && source != target then InTheWayOfRows(t, source, target)
    else Constraints(false, false, false)
  }

  /** What decides whether two contacts of one type are merged. Folded like `Coherent`. */
  ghost predicate Decided(rules: Rules, contacts: Contacts, tables: Tables, merged: bool, source: Id, target: Id)
    requires source in contacts && target in contacts && Resolved(tables)
  {
    forall u :: Unfold(u) ==>
      && (merged ==> Mergeable(contacts, tables, source, target))
      && (Mergeable(contacts, tables, source, target) ==>
            Decides(rules, true, merged, InTheWayOf(contacts, tables, source, target)))
  }

  /** What decides whether the rows of two organizations are merged. Folded like `Coherent`. */
  ghost predicate RowsDecided(rules: Rules, tables: Tables, merged: bool, source: Id, target: Id)
    requires Resolved(tables)
  {
    forall u :: Unfold(u) ==>
      && (merged ==> !DestinationsClash(tables.organizations, source, target))
      && (!DestinationsClash(tables.organizations, source, target) ==>
            Decides(rules, true, merged, InTheWayOfRows(tables, source, target)))
  }

  // ---------------------------------------------------------------- the three parts of a merge

  /** After scalars, capabilities and addresses. */
  ghost predicate DetailsMerged(before: Snapshot, after: Snapshot, source: Id, target: Id)
    requires source in before.contacts && target in before.contacts
  {
    && after.tables == before.tables && after.destinations == before.destinations
    && target in after.contacts && after.contacts == before.contacts[target := after.contacts[target]]
    && FilledIn(after.contacts[target], before.contacts[target], before.contacts[source])
    && CapabilitiesMerged(before.capabilities, after.capabilities, source, target)
    && (Steady(after.contacts[target]) ==>
          var own, theirs, now := AddressesOf(before.addresses, target), AddressesOf(before.addresses, source),
              AddressesOf(after.addresses, target);
          Extended(own, theirs, now, target) && Identities(now) == Identities(own) + Identities(theirs))
    && AddressesElsewhere(before.contacts, before.addresses, after.addresses, target)
  }

  /** After the branch for organizations or for persons. */
  ghost predicate ReferencesMerged(before: Snapshot, after: Snapshot, source: Id, target: Id)
    requires source in before.contacts && target in before.contacts
  {
    && RelationMerged(before.tables, after.tables, source, target)
    && after.capabilities == before.capabilities
    && (Steady(before.contacts[target]) ==> after.addresses == before.addresses)
    && (forall c :: c != target ==> AddressesOf(after.addresses, c) == AddressesOf(before.addresses, c))
    && (if before.contacts[source].kind.Organization? then
          && after.contacts == MembersMoved(before.contacts, source, target)
          && after.destinations == before.destinations
          && LinksKept(before.tables.links, after.tables.links)
          && PersonsKept(before.tables.recipients, after.tables.recipients)
          && after.tables.shippers == ShippersMerged(before.tables.shippers, source, target)
          && after.tables.organizations == OrganizationsMerged(before.tables.organizations, source, target)
          && NothingToMove(after, source)
        else
          && after.contacts == Adopted(before.contacts, source, target)
          && after.destinations == CorrespondentsMoved(before.destinations, source, target)
          && PersonsRenamed(before.tables.recipients, after.tables.recipients, source, target)
          && after.tables.shippers == DefaultContactsMoved(before.tables.shippers, source, target)
          && after.tables.organizations == before.tables.organizations && after.tables.links == before.tables.links)
  }

  ghost predicate Deactivated(before: Snapshot, after: Snapshot, source: Id) {
    && source in before.contacts
    && after
      == before.(contacts := before.contacts[source := before.contacts[source].(active := false)],
        addresses := after.addresses)
    && (forall c :: c != source ==> AddressesOf(after.addresses, c) == AddressesOf(before.addresses, c))
    && (Steady(before.contacts[source]) ==> after.addresses == before.addresses)
  }

  // ---------------------------------------------------------------- the registry rows

  /** The organization branch of `merge_contacts`, on the registry rows. */
  method MergeOrganizationRows(w: World, rules: Rules, source: Id, target: Id) returns (saved: Saved)
    requires Sound(w.tables) && Typed(w.tables, w.contacts)
    requires source != target && IsOrganization(w.contacts, source) && IsOrganization(w.contacts, target)
    ensures saved.Done? ==>
      Sound(saved.tables) && Typed(saved.tables, w.contacts) && RelationMerged(w.tables, saved.tables, source, target)
    ensures saved.Done? ==> saved.tables.shippers == ShippersMerged(w.tables.shippers, source, target)
    ensures saved.Done? ==> saved.tables.organizations == OrganizationsMerged(w.tables.organizations, source, target)
    ensures saved.Done? ==>
      LinksKept(w.tables.links, saved.tables.links) && PersonsKept(w.tables.recipients, saved.tables.recipients)
    ensures RowsDecided(rules, w.tables, saved.Done?, source, target)
    ensures forall enforced :: Enforces(rules, enforced) ==>
      (saved.Done? <==>
         && !DestinationsClash(w.tables.organizations, source, target)
         && !Forbidden(enforced, InTheWayOfRows(w.tables, source, target)))
    ensures saved.Refused? ==> saved.why in {Invalid, DestinationsDiffer}
    ensures saved.Refused? && saved.why == DestinationsDiffer ==>
      DestinationsClash(w.tables.organizations, source, target)
    ensures ShipperFor(w.tables.shippers, source).None? && OrganizationFor(w.tables.organizations, source).None? ==>
      saved == Done(w.tables)
  {
    ghost var n := SoundIsCoherent(w.tables, Renaming(source, target));
    ghost var m, m';
    saved, m := MergeShippers(w, rules, source, target, n);
    if saved.Refused? {
      ShippersDecide(rules, w.tables, source, target);
      RowsDecidedExactly(rules, w.tables, false, source, target);
      return;
    }
    var between := saved.tables;
    saved, m' := MergeRecipientOrganizations(w.(tables := between), rules, source, target, m);
    OrganizationsDecide(rules, w.tables, between, saved.Done?, source, target);
    RowsDecidedExactly(rules, w.tables, saved.Done?, source, target);
    if saved.Refused? { return; }
    KeepsTransitive(ViewOf(n), ViewOf(m), ViewOf(m'));
    LinksKeptTransitive(w.tables.links, between.links, saved.tables.links);
    OrganizationAbsent(w.tables, between, saved.tables, w.contacts, source, target);
    RelationOf(w.tables, n, saved.tables, m', Renaming(source, target));
    TypedAfterOrganization(w.tables, saved.tables, w.contacts, source, target);
  }

  lemma RowsDecidedExactly(rules: Rules, t: Tables, merged: bool, source: Id, target: Id)
    requires Resolved(t) && RowsDecided(rules, t, merged, source, target)
    ensures forall enforced :: Enforces(rules, enforced) ==>
      (merged <==>
         && !DestinationsClash(t.organizations, source, target)
         && !Forbidden(enforced, InTheWayOfRows(t, source, target)))
  {
    assert Unfold(0);
    if !DestinationsClash(t.organizations, source, target) {
      forall enforced | Enforces(rules, enforced)
        ensures merged <==> !Forbidden(enforced, InTheWayOfRows(t, source, target))
      {
        DecidedExactly(rules, enforced, merged, InTheWayOfRows(t, source, target));
      }
    }
  }

  lemma ShippersDecide(rules: Rules, t: Tables, source: Id, target: Id)
    requires Owned(t) && DefaultsExplain(rules, Owned(t), MergeBlocked(t, source, target))
    ensures RowsDecided(rules, t, false, source, target)
  {
    assert Unfold(0);
  }

  lemma OrganizationsDecide(rules: Rules, t: Tables, between: Tables, merged: bool, source: Id, target: Id)
    requires Owned(t) && Resolved(between) && EntriesAreAfterShippers(t, between, source, target) && source != target
    requires between.recipients == t.recipients && between.organizations == t.organizations
    requires OneActiveDefault(rules) ==> !MergeBlocked(t, source, target)
    requires OrganizationsDecided(rules, between, merged, source, target)
    ensures RowsDecided(rules, t, merged, source, target)
  {
    InTheWayAfterShippers(t, between, source, target);
    assert Unfold(0);
  }

  /** The registry part of `_merge_person_references`. */
  method MergePersonRows(w: World, rules: Rules, source: Id, target: Id) returns (saved: Saved)
    requires Sound(w.tables) && Typed(w.tables, w.contacts)
    requires source != target && IsPerson(w.contacts, source) && IsPerson(w.contacts, target)
    ensures saved.Done? ==>
      Sound(saved.tables) && Typed(saved.tables, w.contacts) && RelationMerged(w.tables, saved.tables, source, target)
    ensures saved.Done? ==> saved.tables.shippers == DefaultContactsMoved(w.tables.shippers, source, target)
    ensures saved.Done? ==> saved.tables.organizations == w.tables.organizations && saved.tables.links == w.tables.links
    ensures saved.Done? ==> PersonsRenamed(w.tables.recipients, saved.tables.recipients, source, target)
    ensures OnlyConstraints(rules) ==> saved.Done?
    ensures saved.Refused? ==> saved.why == Invalid
  {
    ghost var n := SoundIsCoherent(w.tables, Renaming(source, target));
    var moved := w.tables.(shippers := DefaultContactsMoved(w.tables.shippers, source, target));
    DefaultContactsKeep(w.tables, n, source, target);
    ghost var m;
    saved, m := MergePersonRecipients(w.(tables := moved), rules, source, target, n);
    if saved.Refused? { return; }
    PersonAbsent(w.tables, saved.tables, w.contacts, source, target);
    RelationOf(w.tables, n, saved.tables, m, Renaming(source, target));
  }

  /** A target without an organization takes the source's. */
  function Adopted(contacts: Contacts, source: Id, target: Id): Contacts
    requires source in contacts && target in contacts
  {
    if contacts[target].organization.None?
    then contacts[target := contacts[target].(organization := contacts[source].organization)]
    else contacts
  }

  /** The guard of `_merge_person_references`. */
  method AdoptOrganization(book: Book, source: Id, target: Id) returns (adopted: bool)
    requires book.Valid() && source != target && IsPerson(book.contacts, source) && IsPerson(book.contacts, target)
    modifies book`contacts, book`addresses
    ensures book.Valid() && book.contacts == Adopted(old(book.contacts), source, target)
    ensures adopted <==> !OrganizationsClash(old(book.contacts), source, target)
    ensures forall c :: c != target ==> AddressesOf(book.addresses, c) == AddressesOf(old(book.addresses), c)
    ensures Steady(old(book.contacts)[target]) ==> book.addresses == old(book.addresses)
    ensures OneDefaultEach(old(book.addresses)) ==> OneDefaultEach(book.addresses)
  {
    var from, to := book.contacts[source], book.contacts[target];
    adopted := true;
    if from.organization.Some? && to.organization.None? {
      book.SaveContact(target, to.(organization := from.organization));
    } else if from.organization.Some? && to.organization.Some? && from.organization != to.organization {
      adopted := false;
    }
  }

  class Registry {
    const book: Book
    const rules: Rules
    var tables: Tables
    var destinations: map<Id, Destination>

    constructor (book: Book, rules: Rules, tables: Tables, destinations: map<Id, Destination>)
      ensures this.book == book && this.rules == rules && this.tables == tables && this.destinations == destinations
    {
      this.book, this.rules, this.tables, this.destinations := book, rules, tables, destinations;
    }

    ghost predicate Valid()
      reads this, book
    {
      book.Valid() && UniqueCapabilities(book.capabilities) && OneDefaultEach(book.addresses)
      && Sound(tables) && Typed(tables, book.contacts)
    }

    function All(): Snapshot
      reads this, book
    {
      Snapshot(book.contacts, book.addresses, book.capabilities, tables, destinations)
    }

    /** The organization branch of `merge_contacts`, after the members. */
    method MergeRows(source: Id, target: Id) returns (outcome: Outcome)
      requires Valid() && source != target && IsOrganization(book.contacts, source)
      requires IsOrganization(book.contacts, target)
      modifies this`tables
      ensures outcome.Merged? ==> Valid() && RelationMerged(old(tables), tables, source, target)
      ensures outcome.Merged? ==> tables.shippers == ShippersMerged(old(tables).shippers, source, target)
      ensures outcome.Merged? ==> tables.organizations == OrganizationsMerged(old(tables).organizations, source, target)
      ensures outcome.Merged? ==>
        LinksKept(old(tables).links, tables.links) && PersonsKept(old(tables).recipients, tables.recipients)
      ensures RowsDecided(rules, old(tables), outcome.Merged?, source, target)
      ensures outcome.Failed? ==> outcome.why in {Invalid, DestinationsDiffer}
      ensures ShipperFor(old(tables).shippers, source).None? && OrganizationFor(old(tables).organizations, source).None?
        ==> outcome.Merged? && tables == old(tables)
    {
      var saved := MergeOrganizationRows(World(tables, book.contacts, destinations), rules, source, target);
      if saved.Refused? { return Failed(saved.why); }
      tables := saved.tables;
      outcome := Merged;
    }

    /** The organization branch of `merge_contacts`. */
    method MergeOrganization(source: Id, target: Id) returns (outcome: Outcome)
      requires Valid() && source != target && IsOrganization(book.contacts, source)
      requires IsOrganization(book.contacts, target)
      modifies this`tables, book`contacts
      ensures outcome.Merged? ==> Valid() && RelationMerged(old(tables), tables, source, target)
      ensures outcome.Merged? ==> book.contacts == MembersMoved(old(book.contacts), source, target)
      ensures outcome.Merged? ==> tables.shippers == ShippersMerged(old(tables).shippers, source, target)
      ensures outcome.Merged? ==> tables.organizations == OrganizationsMerged(old(tables).organizations, source, target)
      ensures outcome.Merged? ==>
        LinksKept(old(tables).links, tables.links) && PersonsKept(old(tables).recipients, tables.recipients)
      ensures Decided(rules, old(book.contacts), old(tables), outcome.Merged?, source, target)
      ensures outcome.Failed? ==> outcome.why in {Invalid, DestinationsDiffer}
      ensures NothingToMove(old(All()), source) ==> outcome.Merged? && All() == old(All())
      ensures outcome.Merged? ==> NothingToMove(All(), source)
    {
      MembersMovedKeeps(tables, book.contacts, book.addresses, source, target);
      ghost var contacts, before := book.contacts, tables;
      book.contacts := MembersMoved(book.contacts, source, target);
      outcome := MergeRows(source, target);
      DecidedForOrganizations(rules, contacts, before, outcome.Merged?, source, target);
      if outcome.Merged? { NoneLeft(before, tables, source, target); }
    }

    /** `_merge_person_references` */
    method MergePerson(source: Id, target: Id) returns (outcome: Outcome)
      requires Valid() && source != target && IsPerson(book.contacts, source) && IsPerson(book.contacts, target)
      modifies this, book`contacts, book`addresses
      ensures outcome.Merged? ==> Valid() && RelationMerged(old(tables), tables, source, target)
      ensures outcome.Merged? ==> tables.shippers == DefaultContactsMoved(old(tables).shippers, source, target)
      ensures outcome.Merged? ==> tables.organizations == old(tables).organizations && tables.links == old(tables).links
      ensures outcome.Merged? ==> PersonsRenamed(old(tables).recipients, tables.recipients, source, target)
      ensures outcome.Merged? ==> destinations == CorrespondentsMoved(old(destinations), source, target)
      ensures outcome.Merged? ==>
        target in book.contacts && book.contacts == Adopted(old(book.contacts), source, target)
      ensures outcome.Merged? ==>
        forall c :: c != target ==> AddressesOf(book.addresses, c) == AddressesOf(old(book.addresses), c)
      ensures Steady(old(book.contacts)[target]) ==> book.addresses == old(book.addresses)
      ensures outcome.Merged? ==> !OrganizationsClash(old(book.contacts), source, target)
      ensures OnlyConstraints(rules) ==> (outcome.Merged? <==> !OrganizationsClash(old(book.contacts), source, target))
      ensures outcome.Failed? ==> outcome.why in {Invalid, OrganizationsDiffer}
    {
      ghost var contacts := book.contacts;
      var adopted := AdoptOrganization(book, source, target);
      if !adopted { return Failed(OrganizationsDiffer); }
      TypedAdopted(tables, contacts, source, target);
      destinations := CorrespondentsMoved(destinations, source, target);
      var saved := MergePersonRows(World(tables, book.contacts, destinations), rules, source, target);
      if saved.Refused? { return Failed(saved.why); }
      tables := saved.tables;
      outcome := Merged;
    }

    /** The two branches of `merge_contacts`. */
    method MergeReferences(source: Id, target: Id) returns (outcome: Outcome)
      requires Valid() && source in book.contacts && target in book.contacts && source != target
      requires book.contacts[source].kind == book.contacts[target].kind
      modifies this, book`contacts, book`addresses
      ensures outcome.Merged? ==> Valid() && ReferencesMerged(old(All()), All(), source, target)
      ensures outcome.Failed? ==> outcome.why in {Invalid, DestinationsDiffer, OrganizationsDiffer}
      ensures Decided(rules, old(book.contacts), old(tables), outcome.Merged?, source, target)
      ensures NothingToMove(old(All()), source) && IsOrganization(old(book.contacts), source) ==>
        outcome.Merged? && All() == old(All())
    {
      if book.contacts[source].kind.Organization? {
        outcome := MergeOrganization(source, target);
      } else {
        ghost var contacts, t := book.contacts, tables;
        outcome := MergePerson(source, target);
        DecidedForPersons(rules, contacts, t, outcome.Merged?, source, target);
      }
    }

    /** The part of `merge_contacts` before the branches. */
    method CarryOver(source: Id, target: Id)
      requires Valid() && source in book.contacts && target in book.contacts && source != target
      requires book.contacts[source].kind == book.contacts[target].kind
      modifies book
      ensures Valid() && DetailsMerged(old(All()), All(), source, target)
      ensures Settled(old(All()), source, target) ==> All() == old(All())
    {
      ghost var contacts := book.contacts;
      MergeDetails(book, source, target);
      TypedFilledIn(tables, contacts, book.contacts, target);
    }

    /** The end of `merge_contacts`. */
    method Deactivate(source: Id)
      requires Valid() && source in book.contacts
      modifies book`contacts, book`addresses
      ensures Valid() && Deactivated(old(All()), All(), source)
      ensures !old(book.contacts)[source].active ==> All() == old(All())
    {
      TypedDeactivated(tables, book.contacts, source);
      if book.contacts[source].active {
        book.SaveContact(source, book.contacts[source].(active := false));
      }
    }

    /** The body of the transaction of `merge_contacts`. */
    method MergeWithin(source: Id, target: Id) returns (outcome: Outcome)
      requires Valid() && source in book.contacts && target in book.contacts && source != target
      requires book.contacts[source].kind == book.contacts[target].kind
      modifies this, book
      ensures outcome.Merged? ==> Valid() && MergedInto(old(All()), All(), source, target)
      ensures outcome.Failed? ==> outcome.why in {Invalid, DestinationsDiffer, OrganizationsDiffer}
      ensures Decided(rules, old(book.contacts), old(tables), outcome.Merged?, source, target)
      ensures outcome.Merged? && IsOrganization(old(book.contacts), source) ==> Settled(All(), source, target)
      ensures Settled(old(All()), source, target) ==> outcome.Merged? && All() == old(All())
    {
      ghost var first := All();
      CarryOver(source, target);
      ghost var detailed := All();
      outcome := MergeReferences(source, target);
      DecidedBefore(rules, first.contacts, detailed.contacts, first.tables, outcome.Merged?, source, target);
      if outcome.Failed? { return; }
      ghost var branched := All();
      Deactivate(source);
      ghost var last := All();
      AllMerged(first, detailed, branched, last, source, target);
    }

    /** `merge_contacts` */
    method MergeContacts(source: Id, target: Id) returns (outcome: Outcome)
      requires Valid() && source in book.contacts && target in book.contacts
      modifies this, book
      ensures Valid()
      ensures outcome.Failed? || source == target ==> All() == old(All())
      ensures outcome == Failed(TypesDiffer) <==>
        source != target && old(book.contacts)[source].kind != old(book.contacts)[target].kind
      ensures outcome.Merged? ==> Mergeable(old(book.contacts), old(tables), source, target)
      ensures Permissive(rules) ==> (outcome.Merged? <==> Mergeable(old(book.contacts), old(tables), source, target))
      ensures outcome.Merged? && source != target ==> MergedInto(old(All()), All(), source, target)
      ensures outcome.Merged? && source != target && IsOrganization(old(book.contacts), source) ==>
        Settled(All(), source, target)
      ensures Settled(old(All()), source, target) ==> outcome.Merged? && All() == old(All())
      ensures forall enforced :: Enforces(rules, enforced) ==>
        (outcome.Merged? <==>
           && Mergeable(old(book.contacts), old(tables), source, target)
           && !Forbidden(enforced, InTheWayOf(old(book.contacts), old(tables), source, target)))
      ensures var inTheWay := InTheWayOf(old(book.contacts), old(tables), source, target);
        outcome.Merged? ==>
          && (OneActiveDefault(rules) ==> !inTheWay.defaults)
          && (OwnOrganizationOnly(rules) ==> !inTheWay.contacts)
          && (OneActiveCorrespondent(rules) ==> !inTheWay.correspondents)
    {
      if source == target { return Merged; }
      if book.contacts[source].kind != book.contacts[target].kind { return Failed(TypesDiffer); }
      var savepoint := All();
      outcome := MergeWithin(source, target);
      DecidedForAll(rules, savepoint.contacts, savepoint.tables, outcome.Merged?, source, target);
      if outcome.Failed? {
        book.contacts, book.addresses := savepoint.contacts, savepoint.addresses;
        book.capabilities := savepoint.capabilities;
        tables, destinations := savepoint.tables, savepoint.destinations;
      }
    }
  }

  /** The relation over contacts that the registry encodes, and nothing else, is renamed: the merge's main result. */
  ghost predicate RelationMerged(before: Tables, after: Tables, source: Id, target: Id) {
    && Resolved(before) && Resolved(after)
    && Keeps(Renamed(Renaming(source, target), Stated(before)), Stated(after))
    && Absent(after, source)
    && after.cascaded == before.cascaded
  }

  lemma RelationOf(before: Tables, n: Labels, after: Tables, n': Labels, r: Renaming)
    requires Coherent(before, n, r) && Coherent(after, n', r) && Keeps(ViewOf(n), ViewOf(n'))
    requires Absent(after, r.source) && after.cascaded == before.cascaded
    ensures RelationMerged(before, after, r.source, r.target) && Sound(after)
  {
    CoherentLabelled(before, n, r);
    CoherentLabelled(after, n', r);
    LabelledIsRenamed(before, n, r);
    LabelledIsRenamed(after, n', r);
    AbsentUnrenamed(after, r);
    CoherentIsSound(after, n', r);
  }

  lemma CoherentLabelled(t: Tables, n: Labels, r: Renaming)
    requires Coherent(t, n, r)
    ensures Labelled(t, n, r)
  {
    assert Unfold(0);
  }

  lemma OrganizationAbsent(before: Tables, between: Tables, after: Tables, contacts: Contacts, source: Id, target: Id)
    requires Typed(before, contacts) && IsOrganization(contacts, source)
    requires between
        == before.(shippers := between.shippers, links := between.links, authorizations := between.authorizations)
    requires forall s :: s in between.shippers ==> between.shippers[s].organization != source
    requires after.shippers == between.shippers && PersonsKept(between.recipients, after.recipients)
    requires forall o :: o in after.organizations ==> after.organizations[o].organization != source
    ensures Absent(after, source)
  {
    assert Unfold(0);
  }

  /** Rows only ever move from the source to the target. */
  lemma ShippersMergedRows(before: map<Id, Shipper>, source: Id, target: Id)
    ensures var after := ShippersMerged(before, source, target);
      forall s :: s in after ==>
        s in before && (after[s].organization == before[s].organization || after[s].organization == target)
  {
  }

  lemma OrganizationsMergedRows(before: map<Id, RecipientOrganization>, source: Id, target: Id)
    ensures var after := OrganizationsMerged(before, source, target);
      forall o :: o in after ==>
        o in before && (after[o].organization == before[o].organization || after[o].organization == target)
  {
  }

  lemma TypedAfterOrganization(before: Tables, after: Tables, contacts: Contacts, source: Id, target: Id)
    requires Typed(before, contacts) && IsOrganization(contacts, target)
    requires after.shippers == ShippersMerged(before.shippers, source, target)
    requires after.organizations == OrganizationsMerged(before.organizations, source, target)
    requires PersonsKept(before.recipients, after.recipients)
    ensures Typed(after, contacts)
  {
    ShippersMergedRows(before.shippers, source, target);
    OrganizationsMergedRows(before.organizations, source, target);
    TypedRows(before, after, contacts, source, target);
  }

  lemma TypedRows(before: Tables, after: Tables, contacts: Contacts, source: Id, target: Id)
    requires Typed(before, contacts) && IsOrganization(contacts, target)
    requires forall s | s in after.shippers ::
      s in before.shippers && (after.shippers[s].organization == before.shippers[s].organization
        || after.shippers[s].organization == target)
    requires forall o | o in after.organizations ::
      o in before.organizations
        && (after.organizations[o].organization == before.organizations[o].organization
            || after.organizations[o].organization == target)
    requires PersonsKept(before.recipients, after.recipients)
    ensures Typed(after, contacts)
  {
    assert Unfold(0);
  }

  lemma TypedMembersMoved(t: Tables, contacts: Contacts, source: Id, target: Id)
    requires Typed(t, contacts)
    ensures Typed(t, MembersMoved(contacts, source, target))
  {
  }

  lemma MembersMovedKeeps(t: Tables, contacts: Contacts, addresses: Addresses, source: Id, target: Id)
    requires Typed(t, contacts) && WellLinked(contacts, addresses) && target in contacts && source != target
    ensures var moved := MembersMoved(contacts, source, target);
      && Typed(t, moved) && WellLinked(moved, addresses)
      && (forall c :: c in moved ==> moved[c].organization != Some(source))
      && ((forall c :: c in contacts ==> contacts[c].organization != Some(source)) ==> moved == contacts)
  {
    TypedMembersMoved(t, contacts, source, target);
  }

  lemma NoneLeft(before: Tables, after: Tables, source: Id, target: Id)
    requires Absent(after, source)
    ensures ShipperFor(after.shippers, source).None? && OrganizationFor(after.organizations, source).None?
  {
  }

  lemma DefaultContactsKeep(t: Tables, n: Labels, source: Id, target: Id)
    requires Coherent(t, n, Renaming(source, target))
    ensures Coherent(t.(shippers := DefaultContactsMoved(t.shippers, source, target)), n, Renaming(source, target))
  {
    assert Unfold(0);
    var after := DefaultContactsMoved(t.shippers, source, target);
    assert forall x, x' :: SameShipper(after, x, x') ==> SameShipper(t.shippers, x, x');
    CoherentMadeOf(t.(shippers := after), n, Renaming(source, target));
  }

  lemma PersonAbsent(before: Tables, after: Tables, contacts: Contacts, source: Id, target: Id)
    requires Typed(before, contacts) && IsPerson(contacts, source) && IsPerson(contacts, target)
    requires after.shippers == DefaultContactsMoved(before.shippers, source, target)
    requires after.organizations == before.organizations
    requires forall c :: c in after.recipients ==> after.recipients[c].contact != source
    requires PersonsRenamed(before.recipients, after.recipients, source, target)
    ensures Absent(after, source) && Typed(after, contacts)
  {
    assert Unfold(0);
  }

  lemma TypedAdopted(t: Tables, contacts: Contacts, source: Id, target: Id)
    requires Typed(t, contacts) && source in contacts && target in contacts
    ensures Typed(t, Adopted(contacts, source, target))
  {
  }

  lemma TypedFilledIn(t: Tables, before: Contacts, after: Contacts, target: Id)
    requires Typed(t, before) && target in before && target in after && after == before[target := after[target]]
    requires after[target].kind == before[target].kind
    ensures Typed(t, after)
  {
  }

  lemma TypedDeactivated(t: Tables, contacts: Contacts, source: Id)
    requires Typed(t, contacts) && source in contacts
    ensures Typed(t, contacts[source := contacts[source].(active := false)])
  {
  }

  lemma DecidedForOrganizations(rules: Rules, contacts: Contacts, t: Tables, merged: bool, source: Id, target: Id)
    requires IsOrganization(contacts, source) && IsOrganization(contacts, target) && source != target
    requires Resolved(t) && RowsDecided(rules, t, merged, source, target)
    ensures Decided(rules, contacts, t, merged, source, target)
  {
    assert Unfold(0);
  }

  lemma DecidedForPersons(rules: Rules, contacts: Contacts, t: Tables, merged: bool, source: Id, target: Id)
    requires IsPerson(contacts, source) && IsPerson(contacts, target) && source != target && Resolved(t)
    requires merged ==> !OrganizationsClash(contacts, source, target)
    requires OnlyConstraints(rules) ==> (merged <==> !OrganizationsClash(contacts, source, target))
    ensures Decided(rules, contacts, t, merged, source, target)
  {
  }

  /** Whatever part of the constraints a validation enforces, it decides the merge by these alone. */
  lemma DecidedForAll(rules: Rules, contacts: Contacts, t: Tables, merged: bool, source: Id, target: Id)
    requires source in contacts && target in contacts && Resolved(t)
    requires Decided(rules, contacts, t, merged, source, target)
    ensures var inTheWay := InTheWayOf(contacts, t, source, target);
      && (merged ==> Mergeable(contacts, t, source, target))
      && (forall enforced :: Enforces(rules, enforced) ==>
            (merged <==> Mergeable(contacts, t, source, target) && !Forbidden(enforced, inTheWay)))
      && (Permissive(rules) ==> (merged <==> Mergeable(contacts, t, source, target)))
      && (merged ==>
            && (OneActiveDefault(rules) ==> !inTheWay.defaults)
            && (OwnOrganizationOnly(rules) ==> !inTheWay.contacts)
            && (OneActiveCorrespondent(rules) ==> !inTheWay.correspondents))
  {
    assert Unfold(0);
    var inTheWay := InTheWayOf(contacts, t, source, target);
    forall enforced | Enforces(rules, enforced)
      ensures merged <==> Mergeable(contacts, t, source, target) && !Forbidden(enforced, inTheWay)
    {
      if Mergeable(contacts, t, source, target) { DecidedExactly(rules, enforced, merged, inTheWay); }
    }
    PermissiveEnforcesNone(rules);
  }

  /** Filling in the target changes nothing the guards look at. */
  lemma DecidedBefore(rules: Rules, before: Contacts, after: Contacts, t: Tables, merged: bool, source: Id, target: Id)
    requires source in before && target in before && source != target
    requires target in after && after == before[target := after[target]]
    requires FilledIn(after[target], before[target], before[source]) && Resolved(t)
    requires Decided(rules, after, t, merged, source, target)
    ensures Decided(rules, before, t, merged, source, target)
  {
    assert Unfold(0);
    assert Mergeable(after, t, source, target) <==> Mergeable(before, t, source, target);
  }

  /** The three parts of a merge, put together. */
  lemma AllMerged(first: Snapshot, detailed: Snapshot, branched: Snapshot, after: Snapshot, source: Id, target: Id)
    requires source in first.contacts && target in first.contacts && source != target
    requires first.contacts[source].kind == first.contacts[target].kind && MembersArePersons(first.contacts)
    requires DetailsMerged(first, detailed, source, target)
    requires ReferencesMerged(detailed, branched, source, target)
    requires Deactivated(branched, after, source)
    ensures MergedInto(first, after, source, target)
    ensures first.contacts[source].kind.Organization? ==> Settled(after, source, target)
  {
    AddressesOfAll(first, detailed, branched, after, source, target);
    if first.contacts[source].kind.Organization? {
      ContactsOfOrganizations(first.contacts, detailed.contacts, branched.contacts, after.contacts, source, target);
      SettledAfter(first, branched, after, source, target);
    } else {
      ContactsOfPersons(first.contacts, detailed.contacts, branched.contacts, after.contacts, source, target);
    }
  }

  lemma AddressesOfAll(first: Snapshot, detailed: Snapshot, branched: Snapshot, after: Snapshot, source: Id, target: Id)
    requires source in first.contacts && target in first.contacts && source != target
    requires first.contacts[source].kind == first.contacts[target].kind && MembersArePersons(first.contacts)
    requires DetailsMerged(first, detailed, source, target)
    requires ReferencesMerged(detailed, branched, source, target)
    requires Deactivated(branched, after, source)
    ensures AddressesMerged(first, after, source, target)
  {
    if first.contacts[source].kind.Organization? {
      assert after.addresses == detailed.addresses;
      assert HandedOn(first.contacts, first.addresses, detailed.addresses, target, source);
    } else {
      forall c | c != source && c != target
        ensures HandedOn(first.contacts, first.addresses, after.addresses, target, c)
      {
        assert HandedOn(first.contacts, first.addresses, detailed.addresses, target, c);
      }
    }
  }

  lemma ContactsOfOrganizations(
    before: Contacts, detailed: Contacts, branched: Contacts, after: Contacts, source: Id, target: Id)
    requires source in before && target in before && source != target && before[source].kind.Organization?
    requires MembersArePersons(before) && before[target].kind.Organization?
    requires target in detailed && detailed == before[target := detailed[target]]
    requires FilledIn(detailed[target], before[target], before[source])
    requires branched == MembersMoved(detailed, source, target)
    requires after == branched[source := branched[source].(active := false)]
    ensures ContactsMerged(before, after, source, target)
  {
  }

  lemma ContactsOfPersons(
    before: Contacts, detailed: Contacts, branched: Contacts, after: Contacts, source: Id, target: Id)
    requires source in before && target in before && source != target && before[source].kind.Person?
    requires target in detailed && detailed == before[target := detailed[target]]
    requires FilledIn(detailed[target], before[target], before[source])
    requires branched == Adopted(detailed, source, target)
    requires after == branched[source := branched[source].(active := false)]
    ensures ContactsMerged(before, after, source, target)
  {
  }

  /** Two organizations are settled once they are merged. */
  lemma SettledAfter(before: Snapshot, branched: Snapshot, after: Snapshot, source: Id, target: Id)
    requires IsOrganization(before.contacts, source) && IsOrganization(before.contacts, target)
    requires ContactsMerged(before.contacts, after.contacts, source, target)
    requires CapabilitiesMerged(before.capabilities, after.capabilities, source, target)
    requires AddressesMerged(before, after, source, target)
    requires NothingToMove(branched, source) && after.tables == branched.tables
    requires after.contacts == branched.contacts[source := after.contacts[source]] && source in branched.contacts
    requires after.contacts[source].organization == branched.contacts[source].organization
    ensures Settled(after, source, target)
  {
    var merged := after.contacts[target];
    assert Steady(merged);
    NothingMissingAfter(merged, before.contacts[target], before.contacts[source]);
    assert NothingMissing(merged, after.contacts[source]);
    assert NothingToMove(after, source) by {
      assert forall c :: c in after.contacts ==>
        c in branched.contacts && after.contacts[c].organization == branched.contacts[c].organization;
    }
  }

  lemma NothingMissingAfter(merged: Contact, target: Contact, source: Contact)
    requires FilledIn(merged.(organization := target.organization), target, source)
    ensures NothingMissing(merged, source.(active := false))
  {
    assert forall f :: TextOf(merged, f) == TextOf(merged.(organization := target.organization), f);
    assert forall f :: TextOf(source.(active := false), f) == TextOf(source, f);
  }

  // ---------------------------------------------------------------- what the renamed relation means for the rows

  /** In a sound registry an authorization row is determined by its three contacts. */
  lemma TripleIdentifiesRow(t: Tables, a: Id, b: Id)
    requires Sound(t) && a in t.authorizations && b in t.authorizations && TripleOf(t, a) == TripleOf(t, b)
    ensures a == b
  {
    var x, y := t.authorizations[a], t.authorizations[b];
    PairIdentifiesLink(t, x.link, y.link);
    assert SameRecipient(t.recipients, x.recipientContact, y.recipientContact);
    assert SameSlot(t.authorizations, a, b);
  }

  lemma PairIdentifiesLink(t: Tables, l: Id, k: Id)
    requires Sound(t) && l in t.links && k in t.links && LinkPair(t, l) == LinkPair(t, k)
    ensures l == k
  {
    assert SameShipper(t.shippers, t.links[l].shipper, t.links[k].shipper);
    assert SameOrganization(t.organizations, t.links[l].recipientOrganization, t.links[k].recipientOrganization);
    assert SameLink(t.links, l, k);
  }

  /** An authorization is active after the merge exactly when one of those it stands for was. */
  lemma ActiveIsDisjunction(before: Tables, after: Tables, source: Id, target: Id, a: Id)
    requires RelationMerged(before, after, source, target) && Sound(after) && a in after.authorizations
    ensures after.authorizations[a].active <==>
      exists b :: b in before.authorizations && before.authorizations[b].active
        && Renaming(source, target).OfTriple(TripleOf(before, b)) == TripleOf(after, a)
  {
    var r := Renaming(source, target);
    assert Unfold(0, TheView);
    if after.authorizations[a].active {
      assert TripleOf(after, a) in Renamed(r, Stated(before)).active;
      var x :| x in Stated(before).active && r.OfTriple(x) == TripleOf(after, a);
      var b :| b in before.authorizations && before.authorizations[b].active && TripleOf(before, b) == x;
    }
    var z := TripleOf(after, a);
    if b :| b in before.authorizations && before.authorizations[b].active && r.OfTriple(TripleOf(before, b)) == z {
      assert TripleOf(before, b) in Stated(before).active;
      assert TripleOf(after, a) in Stated(after).active;
      var c :| c in after.authorizations && after.authorizations[c].active && TripleOf(after, c) == TripleOf(after, a);
      TripleIdentifiesRow(after, a, c);
    }
  }

  ghost predicate LinkHasDefault(t: Tables, l: Id) {
    exists a :: a in t.authorizations && t.authorizations[a].link == l && t.authorizations[a].isDefault
  }

  lemma StatedDefault(t: Tables, p: Pair)
    requires Resolved(t)
    ensures p in Stated(t).withDefault <==> exists l :: l in t.links && LinkHasDefault(t, l) && LinkPair(t, l) == p
  {
    if p in Stated(t).withDefault {
      var a :| a in t.authorizations && t.authorizations[a].isDefault && LinkPair(t, t.authorizations[a].link) == p;
      assert LinkHasDefault(t, t.authorizations[a].link);
    }
  }

  /** A link has a default after the merge exactly when one of those it stands for had. */
  lemma DefaultIffAPartHad(before: Tables, after: Tables, source: Id, target: Id, l: Id)
    requires RelationMerged(before, after, source, target) && Sound(after) && l in after.links
    ensures LinkHasDefault(after, l) <==>
      exists k :: k in before.links && LinkHasDefault(before, k)
        && Renaming(source, target).OfPair(LinkPair(before, k)) == LinkPair(after, l)
  {
    var r, pair := Renaming(source, target), LinkPair(after, l);
    StatedDefault(after, pair);
    forall k | k in after.links && LinkPair(after, k) == pair ensures k == l { PairIdentifiesLink(after, k, l); }
    assert pair in Stated(after).withDefault <==>
      exists p :: p in Stated(before).withDefault && r.OfPair(p) == pair by {
      assert Unfold(0, TheView);
    }
    forall p
      ensures p in Stated(before).withDefault <==>
        exists k :: k in before.links && LinkHasDefault(before, k) && LinkPair(before, k) == p
    {
      StatedDefault(before, p);
    }
  }

  // ---------------------------------------------------------------- members that follow the source

  /** A member that followed the source's address follows the target and keeps the addresses it had. */
  lemma FollowersKeepAddresses(before: Snapshot, after: Snapshot, source: Id, target: Id, c: Id)
    requires MergedInto(before, after, source, target) && MembersArePersons(before.contacts)
    requires IsOrganization(before.contacts, source) && IsOrganization(before.contacts, target)
    requires Follows(before.contacts, c, source)
    ensures Follows(after.contacts, c, target)
    ensures AddressesOf(after.addresses, c) == AddressesOf(before.addresses, c)
    ensures forall postal ::
      DefaultPostalIs(after.addresses, c, postal) <==> DefaultPostalIs(before.addresses, c, postal)
    ensures forall postal :: DefaultPostalIs(before.addresses, target, postal) ==>
      DefaultPostalIs(after.addresses, target, postal)
  {
    assert HandedOn(before.contacts, before.addresses, after.addresses, target, c);
    forall postal
      ensures DefaultPostalIs(after.addresses, c, postal) <==> DefaultPostalIs(before.addresses, c, postal)
    {
      SameAddressesSameDefault(before.addresses, after.addresses, c, postal);
    }
    assert Steady(after.contacts[target]);
    assert Unfold(0, TheAddresses);
    DefaultsPersist(before.addresses, after.addresses, target);
  }

  /** If its default address was not the target's, the member is left with an address that is not its organization's. */
  lemma FollowerStaysBehind(
    before: Snapshot, after: Snapshot, source: Id, target: Id, c: Id, copied: Postal, other: Postal)
    requires MergedInto(before, after, source, target) && MembersArePersons(before.contacts)
    requires IsOrganization(before.contacts, source) && IsOrganization(before.contacts, target)
    requires Follows(before.contacts, c, source) && DefaultPostalIs(before.addresses, target, other)
    requires DefaultPostalIs(before.addresses, c, copied) && !DefaultPostalIs(before.addresses, c, other)
    ensures Follows(after.contacts, c, target) && DefaultPostalIs(after.addresses, target, other)
    ensures DefaultPostalIs(after.addresses, c, copied) && !DefaultPostalIs(after.addresses, c, other)
  {
    FollowersKeepAddresses(before, after, source, target, c);
  }
}
