/** What a merge carries over from the contact itself: text fields, flags, capabilities and addresses
    (wms/admin_contacts_merge_service.py). */
module ContactDetails {
  import opened Ids
  import opened ContactBook
  import Text

  // ---------------------------------------------------------------- scalar fields

  const FIELDS: seq<Field> := [Title, Email, Email2, Phone, Phone2, Role, Notes]

  function TextOf(c: Contact, f: Field): string {
    if f in c.texts then c.texts[f] else ""
  }

  /** The target keeps what it has and takes over what it lacks. */
  ghost predicate FilledIn(merged: Contact, target: Contact, source: Contact) {
    && merged.kind == target.kind && merged.name == target.name && merged.organization == target.organization
    && (forall f :: TextOf(merged, f) == if TextOf(target, f) == "" then TextOf(source, f) else TextOf(target, f))
    && merged.useOrganizationAddress
      == (target.useOrganizationAddress || (source.kind.Person? && source.useOrganizationAddress))
    && merged.active == (target.active || source.active)
  }

  // ---------------------------------------------------------------- filling in, column by column

  /** The text stored for a column, if it is not empty. */
  ghost predicate HasText(c: Contact, f: Field, text: string) {
    f in c.texts && c.texts[f] == text && text != ""
  }

  /** Each text of the target stays; where it had none it has the source's, if any. */
  lemma TextsFilledIn(merged: Contact, target: Contact, source: Contact, f: Field, text: string)
    requires FilledIn(merged, target, source)
    ensures HasText(merged, f, text) <==>
      HasText(target, f, text) || ((forall own :: !HasText(target, f, own)) && HasText(source, f, text))
  {
    assert forall c: Contact, t :: HasText(c, f, t) <==> TextOf(c, f) == t && t != "";
    if TextOf(target, f) != "" { assert HasText(target, f, TextOf(target, f)); }
  }

  /** Nothing of the source is missing from the target. */
  ghost predicate NothingMissing(target: Contact, source: Contact) {
    && (forall f :: TextOf(target, f) == "" ==> TextOf(source, f) == "")
    && (source.kind.Person? && source.useOrganizationAddress ==> target.useOrganizationAddress)
    && (source.active ==> target.active)
  }

  /** The loop over the text columns. */
  method FilledTexts(
    source: Contact, target: Contact, fields: seq<Field>) returns (texts: map<Field, string>, updated: bool)
    ensures forall f :: f in fields ==>
      TextOf(target.(texts := texts), f) == if TextOf(target, f) == "" then TextOf(source, f) else TextOf(target, f)
    ensures !updated ==> texts == target.texts
    ensures (forall f :: TextOf(target, f) == "" ==> TextOf(source, f) == "") ==> !updated
  {
    texts, updated := target.texts, false;
    for i := 0 to |fields|
      invariant forall f :: f in fields[..i] ==>
        TextOf(target.(texts := texts), f) == if TextOf(target, f) == "" then TextOf(source, f) else TextOf(target, f)
      invariant forall f :: f !in fields[..i] ==> TextOf(target.(texts := texts), f) == TextOf(target, f)
      invariant !updated ==> texts == target.texts
      invariant (forall f :: TextOf(target, f) == "" ==> TextOf(source, f) == "") ==> !updated
    {
      var f := fields[i];
      if TextOf(target.(texts := texts), f) == "" && TextOf(source, f) != "" {
        texts, updated := texts[f := TextOf(source, f)], true;
      }
      assert fields[..i + 1] == fields[..i] + [f];
    }
    assert fields[..|fields|] == fields;
  }

  method MergedScalars(source: Contact, target: Contact) returns (merged: Contact, updated: bool)
    ensures FilledIn(merged, target, source)
    ensures !updated ==> merged == target
    ensures NothingMissing(target, source) ==> !updated
  {
    var texts;
    texts, updated := FilledTexts(source, target, FIELDS);
    merged := target.(texts := texts);
    forall f
      ensures TextOf(merged, f) == if TextOf(target, f) == "" then TextOf(source, f) else TextOf(target, f)
    {
      EveryField(f);
    }
    if source.kind.Person? && !target.useOrganizationAddress && source.useOrganizationAddress {
      merged, updated := merged.(useOrganizationAddress := true), true;
    }
    if !target.active && source.active {
      merged, updated := merged.(active := true), true;
    }
  }

  lemma EveryField(f: Field)
    ensures f in FIELDS
  {
    match f
    case Title => assert FIELDS[0] == f;
    case Email => assert FIELDS[1] == f;
    case Email2 => assert FIELDS[2] == f;
    case Phone => assert FIELDS[3] == f;
    case Phone2 => assert FIELDS[4] == f;
    case Role => assert FIELDS[5] == f;
    case Notes => assert FIELDS[6] == f;
  }

  /** Saving the contact leaves its addresses alone. */
  predicate Steady(c: Contact) {
    c.kind.Organization? || !c.useOrganizationAddress
  }

  /** `_merge_scalar_fields` */
  method MergeScalarFields(book: Book, source: Id, target: Id)
    requires book.Valid() && source in book.contacts && target in book.contacts && source != target
    requires book.contacts[source].kind == book.contacts[target].kind
    modifies book`contacts, book`addresses
    ensures book.Valid() && target in book.contacts
    ensures FilledIn(book.contacts[target], old(book.contacts)[target], old(book.contacts)[source])
    ensures book.contacts == old(book.contacts)[target := book.contacts[target]]
    ensures forall c :: c != target ==> AddressesOf(book.addresses, c) == AddressesOf(old(book.addresses), c)
    ensures Steady(book.contacts[target]) ==> book.addresses == old(book.addresses)
    ensures OneDefaultEach(old(book.addresses)) ==> OneDefaultEach(book.addresses)
    ensures NothingMissing(old(book.contacts)[target], old(book.contacts)[source]) ==>
      book.contacts == old(book.contacts) && book.addresses == old(book.addresses)
  {
    var merged, updated := MergedScalars(book.contacts[source], book.contacts[target]);
    if updated {
      book.SaveContact(target, merged);
    }
    assert book.contacts[target] == merged;
  }

  // ---------------------------------------------------------------- capabilities

  /** `_merge_capabilities` */
  method MergeCapabilities(book: Book, source: Id, target: Id)
    requires source != target && UniqueCapabilities(book.capabilities)
    modifies book`capabilities
    ensures UniqueCapabilities(book.capabilities)
    ensures ActiveCapabilities(book.capabilities, target)
         == ActiveCapabilities(old(book.capabilities), target) + ActiveCapabilities(old(book.capabilities), source)
    ensures forall c :: c != target ==>
      ActiveCapabilities(book.capabilities, c) == ActiveCapabilities(old(book.capabilities), c)
    ensures ActiveCapabilities(old(book.capabilities), source) <= ActiveCapabilities(old(book.capabilities), target) ==>
      book.capabilities == old(book.capabilities)
  {
    var missing := ActiveCapabilities(book.capabilities, source);
    while missing != {}
      invariant missing <= ActiveCapabilities(old(book.capabilities), source)
      invariant UniqueCapabilities(book.capabilities)
      invariant ActiveCapabilities(book.capabilities, target)
        == ActiveCapabilities(old(book.capabilities), target)
          + (ActiveCapabilities(old(book.capabilities), source) - missing)
      invariant forall c :: c != target ==>
        ActiveCapabilities(book.capabilities, c) == ActiveCapabilities(old(book.capabilities), c)
      invariant
        ActiveCapabilities(old(book.capabilities), source) <= ActiveCapabilities(old(book.capabilities), target) ==>
          book.capabilities == old(book.capabilities)
      decreases missing
    {
      var capability :| capability in missing;
      book.EnsureCapability(target, capability);
      missing := missing - {capability};
    }
  }

  // ---------------------------------------------------------------- addresses

  /** `_address_identity` */
  function Identity(p: Postal): Postal {
    Postal(Text.Strip(p.line1), Text.Strip(p.line2), Text.Strip(p.postalCode), Text.Strip(p.city), Text.Strip(p.region),
      Text.Strip(p.country))
  }

  function Identities(own: Addresses): set<Postal> {
    set a | a in own :: Identity(own[a].postal)
  }

  /** The target's earlier rows are untouched. */
  ghost predicate Untouched(before: Addresses, after: Addresses) {
    forall a :: a in before ==> a in after && after[a] == before[a]
  }

  /** A new row copies a source row whose identity the target lacked; it is a default only if that row was one and the
      target had none. */
  ghost predicate CopiesMissing(before: Addresses, source: Addresses, after: Addresses, target: Id) {
    forall a :: a in after && a !in before ==> CopyOfSome(before, source, after[a], target)
  }

  ghost predicate CopyOfSome(before: Addresses, source: Addresses, row: Address, target: Id) {
    && Identity(row.postal) !in Identities(before)
    && (exists b ::
          b in source && row == source[b].(contact := target, isDefault := row.isDefault)
            && (row.isDefault ==> source[b].isDefault))
    && (row.isDefault ==> !HasDefault(before, target))
  }

  /** No identity is copied twice. */
  ghost predicate CopiedOnce(before: Addresses, after: Addresses) {
    forall a, b | a in after && a !in before && b in after && b !in before
      && Identity(after[a].postal) == Identity(after[b].postal) :: a == b
  }

  /** The target's own rows after a merge. */
  ghost predicate Extended(before: Addresses, source: Addresses, after: Addresses, target: Id) {
    forall u :: Unfold(u, TheAddresses) ==>
      Untouched(before, after) && CopiesMissing(before, source, after, target) && CopiedOnce(before, after)
  }

  lemma ExtendedAtFirst(before: Addresses, source: Addresses, target: Id)
    ensures Extended(before, source, before, target)
  {
  }

  lemma IdentitiesGrow(before: Addresses, after: Addresses)
    requires Untouched(before, after)
    ensures Identities(before) <= Identities(after)
    ensures forall target :: HasDefault(before, target) ==> HasDefault(after, target)
  {
    forall p | p in Identities(before) ensures p in Identities(after) {
      var a :| a in before && Identity(before[a].postal) == p;
      assert after[a] == before[a];
    }
    forall target | HasDefault(before, target) ensures HasDefault(after, target) {
      var a :| a in before && before[a].contact == target && before[a].isDefault;
      assert after[a] == before[a];
    }
  }

  lemma IdentitiesByOneBounded(own: Addresses, id: Id, row: Address)
    ensures Identities(own[id := row]) <= Identities(own) + {Identity(row.postal)}
  {
  }

  lemma IdentitiesByOne(own: Addresses, id: Id, row: Address)
    requires id !in own
    ensures Identities(own[id := row]) == Identities(own) + {Identity(row.postal)}
  {
    IdentitiesByOneBounded(own, id, row);
    IdentitiesGrow(own, own[id := row]);
    assert id in own[id := row];
  }

  /** Two addresses count as one exactly when their six fields are equal up to blanks around them. */
  lemma SameIdentityIff(p: Postal, q: Postal)
    ensures Identity(p) == Identity(q) <==>
      && Text.Strip(p.line1) == Text.Strip(q.line1) && Text.Strip(p.line2) == Text.Strip(q.line2)
      && Text.Strip(p.postalCode) == Text.Strip(q.postalCode) && Text.Strip(p.city) == Text.Strip(q.city)
      && Text.Strip(p.region) == Text.Strip(q.region) && Text.Strip(p.country) == Text.Strip(q.country)
  {
  }

  /** Every address of the source is found among the target's, up to blanks. */
  lemma AddressArrives(own: Addresses, theirs: Addresses, now: Addresses, b: Id) returns (a: Id)
    requires Identities(now) == Identities(own) + Identities(theirs) && b in theirs
    ensures a in now && Identity(now[a].postal) == Identity(theirs[b].postal)
  {
    assert Identity(theirs[b].postal) in Identities(now);
    a :| a in now && Identity(now[a].postal) == Identity(theirs[b].postal);
  }

  /** What is new among the target's addresses is a source address with all its columns, and was missing. */
  lemma NewAddressTells(own: Addresses, theirs: Addresses, now: Addresses, target: Id, a: Id) returns (b: Id)
    requires Extended(own, theirs, now, target) && a in now && a !in own
    ensures b in theirs && now[a].contact == target && now[a].postal == theirs[b].postal
    ensures now[a].heading == theirs[b].heading && now[a].phone == theirs[b].phone
    ensures now[a].email == theirs[b].email && now[a].notes == theirs[b].notes
    ensures now[a].isDefault ==>
      theirs[b].isDefault && forall x :: x in own && own[x].contact == target ==> !own[x].isDefault
    ensures forall x :: x in own ==> Identity(own[x].postal) != Identity(theirs[b].postal)
  {
    ExtendedParts(own, theirs, now, target);
    assert CopyOfSome(own, theirs, now[a], target);
    b :| b in theirs && now[a] == theirs[b].(contact := target, isDefault := now[a].isDefault)
      && (now[a].isDefault ==> theirs[b].isDefault);
    forall x | x in own ensures Identity(own[x].postal) != Identity(theirs[b].postal) {
      assert Identity(own[x].postal) in Identities(own);
    }
  }

  /** One new row on top of rows that extend the earlier ones. */
  lemma ExtendedByOne(before: Addresses, source: Addresses, own: Addresses, b: Id, id: Id, row: Address, target: Id)
    requires Extended(before, source, own, target) && b in source && id !in own && id !in before
    requires Identity(source[b].postal) !in Identities(own)
    requires row == source[b].(contact := target, isDefault := row.isDefault)
    requires row.isDefault ==> source[b].isDefault && !HasDefault(own, target)
    ensures Extended(before, source, own[id := row], target)
  {
    ExtendedParts(before, source, own, target);
    IdentitiesGrow(before, own);
    assert CopyOfSome(before, source, row, target);
    CopiesMissingByOne(before, source, own, id, row, target);
    CopiedOnceByOne(before, own, id, row);
    ExtendedMadeOf(before, source, own[id := row], target);
  }

  lemma ExtendedParts(before: Addresses, source: Addresses, after: Addresses, target: Id)
    requires Extended(before, source, after, target)
    ensures Untouched(before, after) && CopiesMissing(before, source, after, target) && CopiedOnce(before, after)
  {
    assert Unfold(0, TheAddresses);
  }

  lemma ExtendedMadeOf(before: Addresses, source: Addresses, after: Addresses, target: Id)
    requires Untouched(before, after) && CopiesMissing(before, source, after, target) && CopiedOnce(before, after)
    ensures Extended(before, source, after, target)
  {
  }

  lemma CopiesMissingByOne(before: Addresses, source: Addresses, own: Addresses, id: Id, row: Address, target: Id)
    requires CopiesMissing(before, source, own, target) && id !in own && CopyOfSome(before, source, row, target)
    ensures CopiesMissing(before, source, own[id := row], target)
  {
  }

  lemma CopiedOnceByOne(before: Addresses, own: Addresses, id: Id, row: Address)
    requires CopiedOnce(before, own) && id !in own && Identity(row.postal) !in Identities(own)
    ensures CopiedOnce(before, own[id := row])
  {
    assert forall a :: a in own ==> Identity(own[a].postal) in Identities(own);
  }

  /** The new row is the only default there can be, so storing it clears nothing. */
  lemma StoredClearsNothing(own: Addresses, id: Id, row: Address)
    requires row.isDefault ==> !HasDefault(own, row.contact)
    requires forall a :: a in own ==> own[a].contact == row.contact
    ensures Stored(own, id, row) == own[id := row]
  {
  }

  /** `_merge_addresses` */
  method MergeAddresses(book: Book, source: Id, target: Id)
    requires book.Valid() && source in book.contacts && target in book.contacts && source != target
    modifies book`addresses
    ensures book.Valid()
    ensures Extended(AddressesOf(old(book.addresses), target), AddressesOf(old(book.addresses), source),
      AddressesOf(book.addresses, target), target)
    ensures Identities(AddressesOf(book.addresses, target))
         == Identities(AddressesOf(old(book.addresses), target)) + Identities(AddressesOf(old(book.addresses), source))
    ensures AddressesElsewhere(book.contacts, old(book.addresses), book.addresses, target)
    ensures OneDefaultEach(old(book.addresses)) ==> OneDefaultEach(book.addresses)
    ensures
      Identities(AddressesOf(old(book.addresses), source)) <= Identities(AddressesOf(old(book.addresses), target)) ==>
        book.addresses == old(book.addresses)
  {
    ghost var before, theirs := AddressesOf(book.addresses, target), AddressesOf(book.addresses, source);
    var existing := Identities(AddressesOf(book.addresses, target));
    var fetched := AddressesOf(book.addresses, source);
    var ids := FetchIds(fetched.Keys);
    ExtendedAtFirst(before, theirs, target);
    while ids != []
      invariant book.Valid()
      invariant forall a :: a in ids ==> a in fetched
      invariant Extended(before, theirs, AddressesOf(book.addresses, target), target)
      invariant existing == Identities(AddressesOf(book.addresses, target))
      invariant forall a :: a in fetched && a !in ids ==> Identity(fetched[a].postal) in existing
      invariant Untouched(before, AddressesOf(book.addresses, target))
      invariant AddressesElsewhere(book.contacts, old(book.addresses), book.addresses, target)
      invariant OneDefaultEach(old(book.addresses)) ==> OneDefaultEach(book.addresses)
      invariant Identities(fetched) <= Identities(before) ==> book.addresses == old(book.addresses)
      decreases |ids|
    {
      assert ids[0] in ids;
      ghost var earlier := book.addresses;
      existing := CopyUnlessPresent(book, target, fetched[ids[0]], existing, ids[0], before, theirs);
      ElsewhereChain(book.contacts, old(book.addresses), earlier, book.addresses, target);
      assert forall a :: a in fetched && a !in ids[1..] ==> a == ids[0] || a !in ids;
      ids := ids[1..];
    }
    ExtendedIdentities(before, fetched, AddressesOf(book.addresses, target), target);
  }

  /** A copied row has an identity of the source. */
  lemma CopyHasSourceIdentity(before: Addresses, source: Addresses, row: Address, target: Id)
    requires CopyOfSome(before, source, row, target)
    ensures Identity(row.postal) in Identities(source)
  {
    var b :| b in source && row == source[b].(contact := target, isDefault := row.isDefault);
    assert row.postal == source[b].postal;
  }

  lemma IdentitiesBounded(before: Addresses, source: Addresses, after: Addresses, target: Id)
    requires Untouched(before, after) && CopiesMissing(before, source, after, target)
    ensures Identities(after) <= Identities(before) + Identities(source)
  {
    forall a | a in after
      ensures Identity(after[a].postal) in Identities(before) + Identities(source)
    {
      if a in before {
        assert Identity(before[a].postal) in Identities(before);
      } else {
        CopyHasSourceIdentity(before, source, after[a], target);
      }
    }
  }

  lemma ExtendedIdentities(before: Addresses, source: Addresses, after: Addresses, target: Id)
    requires Extended(before, source, after, target)
    requires forall a :: a in source ==> Identity(source[a].postal) in Identities(after)
    ensures Identities(after) == Identities(before) + Identities(source)
  {
    ExtendedParts(before, source, after, target);
    IdentitiesGrow(before, after);
    IdentitiesBounded(before, source, after, target);
    assert Identities(source) <= Identities(after);
  }

  /** An organization without a default address got one. */
  ghost predicate GainsDefault(contacts: Contacts, before: Addresses, after: Addresses, target: Id) {
    && target in contacts && contacts[target].kind.Organization?
    && !HasDefault(before, target) && HasDefault(after, target)
  }

  /** The member's default address is a copy of the target's. */
  ghost predicate CopiedFromDefault(before: Addresses, after: Addresses, target: Id, member: Id) {
    exists postal :: DefaultPostalIs(after, target, postal) && CopiedFor(before, after, member, postal)
  }

  ghost predicate CopiedFor(before: Addresses, after: Addresses, member: Id, postal: Postal) {
    CopiedInto(AddressesOf(before, member), AddressesOf(after, member), member, postal)
  }

  /** Contacts other than the target keep their addresses, except that a default address which the target gains is
      copied to every member that follows it. */
  ghost predicate HandedOn(contacts: Contacts, before: Addresses, after: Addresses, target: Id, c: Id) {
    if GainsDefault(contacts, before, after, target) && Follows(contacts, c, target)
    then CopiedFromDefault(before, after, target, c)
    else AddressesOf(after, c) == AddressesOf(before, c)
  }

  ghost predicate AddressesElsewhere(contacts: Contacts, before: Addresses, after: Addresses, target: Id) {
    forall c :: c != target ==> HandedOn(contacts, before, after, target, c)
  }

  lemma DefaultsPersist(before: Addresses, after: Addresses, target: Id)
    requires Untouched(AddressesOf(before, target), AddressesOf(after, target))
    ensures HasDefault(before, target) ==> HasDefault(after, target)
    ensures forall postal :: DefaultPostalIs(before, target, postal) ==> DefaultPostalIs(after, target, postal)
  {
    forall a | a in before && before[a].contact == target ensures a in after && after[a] == before[a] {
      assert a in AddressesOf(before, target);
      assert a in AddressesOf(after, target);
    }
  }

  /** The target gains a default at most once. */
  lemma ElsewhereChain(contacts: Contacts, before: Addresses, between: Addresses, after: Addresses, target: Id)
    requires AddressesElsewhere(contacts, before, between, target)
    requires AddressesElsewhere(contacts, between, after, target)
    requires Untouched(AddressesOf(before, target), AddressesOf(between, target))
    requires Untouched(AddressesOf(between, target), AddressesOf(after, target))
    ensures AddressesElsewhere(contacts, before, after, target)
  {
    DefaultsPersist(before, between, target);
    DefaultsPersist(between, after, target);
    forall c | c != target ensures HandedOn(contacts, before, after, target, c) {
      assert HandedOn(contacts, before, between, target, c) && HandedOn(contacts, between, after, target, c);
      if GainsDefault(contacts, before, between, target) && Follows(contacts, c, target) {
        var postal :| DefaultPostalIs(between, target, postal) && CopiedFor(before, between, c, postal);
        assert DefaultPostalIs(after, target, postal) && CopiedFor(before, after, c, postal);
      }
    }
  }

  /** Saving the target itself first makes no difference elsewhere. */
  lemma ElsewhereAfterSave(
    first: Contacts, contacts: Contacts, before: Addresses, between: Addresses, after: Addresses, target: Id)
    requires target in first && target in contacts && contacts == first[target := contacts[target]]
    requires contacts[target].kind == first[target].kind
    requires contacts[target].kind.Organization? ==> between == before
    requires forall c :: c != target ==> AddressesOf(between, c) == AddressesOf(before, c)
    requires AddressesElsewhere(contacts, between, after, target)
    ensures AddressesElsewhere(first, before, after, target)
  {
    forall c | c != target ensures HandedOn(first, before, after, target, c) {
      assert HandedOn(contacts, between, after, target, c);
    }
  }

  /** What saving a row of the target does elsewhere. */
  lemma ElsewhereBySave(contacts: Contacts, before: Addresses, after: Addresses, id: Id, row: Address)
    requires row.contact in contacts && id !in before && MembersArePersons(contacts)
    requires row.isDefault ==> !HasDefault(before, row.contact)
    requires forall c :: SavedFor(contacts, before, after, id, row, c)
    ensures AddressesElsewhere(contacts, before, after, row.contact)
    ensures AddressesOf(after, row.contact) == AddressesOf(Stored(before, id, row), row.contact)
  {
    assert SavedFor(contacts, before, after, id, row, row.contact);
    var own := AddressesOf(after, row.contact);
    StoredForOthers(before, id, row);
    assert id in Stored(before, id, row) && Stored(before, id, row)[id] == row;
    assert id in own && own[id] == row;
    assert row.isDefault ==> DefaultPostalIs(after, row.contact, row.postal) && HasDefault(after, row.contact);
    if !row.isDefault && HasDefault(after, row.contact) {
      var a :| a in after && after[a].contact == row.contact && after[a].isDefault;
      assert a in own;
      assert a != id && a in before && before[a] == own[a];
    }
    forall c | c != row.contact ensures HandedOn(contacts, before, after, row.contact, c) {
      assert SavedFor(contacts, before, after, id, row, c);
    }
  }

  /** One round of `_merge_addresses`. */
  method CopyUnlessPresent(
    book: Book, target: Id, address: Address, existing: set<Postal>, ghost b: Id, ghost before: Addresses,
    ghost theirs: Addresses)
    returns (seen: set<Postal>)
    requires book.Valid() && target in book.contacts
    requires b in theirs && theirs[b] == address
    requires existing == Identities(AddressesOf(book.addresses, target))
    requires Extended(before, theirs, AddressesOf(book.addresses, target), target)
    modifies book`addresses
    ensures book.Valid()
    ensures Extended(before, theirs, AddressesOf(book.addresses, target), target)
    ensures seen == existing + {Identity(address.postal)} == Identities(AddressesOf(book.addresses, target))
    ensures Identity(address.postal) in Identities(theirs)
    ensures Untouched(AddressesOf(old(book.addresses), target), AddressesOf(book.addresses, target))
    ensures AddressesElsewhere(book.contacts, old(book.addresses), book.addresses, target)
    ensures OneDefaultEach(old(book.addresses)) ==> OneDefaultEach(book.addresses)
    ensures Identity(address.postal) in existing ==> book.addresses == old(book.addresses)
  {
    seen := existing;
    var identity := Identity(address.postal);
    if identity !in existing {
      CreateAddress(book, target, address, b, before, theirs);
      seen := existing + {identity};
    }
  }

  /** The new row extends the target's own rows and clears none of them. */
  lemma CopyFits(addresses: Addresses, before: Addresses, theirs: Addresses, b: Id, id: Id, row: Address, target: Id)
    requires id !in addresses && b in theirs && row == theirs[b].(contact := target, isDefault := row.isDefault)
    requires row.isDefault ==> theirs[b].isDefault && !HasDefault(addresses, target)
    requires Extended(before, theirs, AddressesOf(addresses, target), target)
    requires Identity(row.postal) !in Identities(AddressesOf(addresses, target))
    ensures var own := AddressesOf(addresses, target);
      && AddressesOf(Stored(addresses, id, row), target) == own[id := row] && id !in own
      && Extended(before, theirs, own[id := row], target)
      && Identities(own[id := row]) == Identities(own) + {Identity(row.postal)}
  {
    var own := AddressesOf(addresses, target);
    assert id !in before && id !in own by { ExtendedParts(before, theirs, own, target); }
    OwnDefaults(addresses, target);
    IdentitiesByOne(own, id, row);
    StoredOwn(addresses, id, row);
    StoredClearsNothing(own, id, row);
    ExtendedByOne(before, theirs, own, b, id, row, target);
  }

  /** Whether the contact has a default address already. */
  method DefaultTaken(book: Book, contact: Id) returns (taken: bool)
    ensures taken <==> HasDefault(book.addresses, contact)
  {
    var defaults := set a | a in book.addresses && book.addresses[a].contact == contact && book.addresses[a].isDefault;
    taken := defaults != {};
    if HasDefault(book.addresses, contact) {
      var a :| a in book.addresses && book.addresses[a].contact == contact && book.addresses[a].isDefault;
      assert a in defaults;
    }
  }

  /** The copy of one source address that `_merge_addresses` creates. */
  method CreateAddress(
    book: Book, target: Id, address: Address, ghost b: Id, ghost before: Addresses, ghost theirs: Addresses)
    requires book.Valid() && target in book.contacts
    requires b in theirs && theirs[b] == address
    requires Identity(address.postal) !in Identities(AddressesOf(book.addresses, target))
    requires Extended(before, theirs, AddressesOf(book.addresses, target), target)
    modifies book`addresses
    ensures book.Valid()
    ensures Extended(before, theirs, AddressesOf(book.addresses, target), target)
    ensures Identities(AddressesOf(book.addresses, target))
        == Identities(AddressesOf(old(book.addresses), target)) + {Identity(address.postal)}
    ensures Untouched(AddressesOf(old(book.addresses), target), AddressesOf(book.addresses, target))
    ensures AddressesElsewhere(book.contacts, old(book.addresses), book.addresses, target)
    ensures OneDefaultEach(old(book.addresses)) ==> OneDefaultEach(book.addresses)
  {
    var taken := DefaultTaken(book, target);
    var row := address.(contact := target, isDefault := !taken && address.isDefault);
    var id := FreshId(book.addresses.Keys);
    CopyFits(book.addresses, before, theirs, b, id, row, target);
    ghost var earlier := book.addresses;
    book.SaveAddress(id, row);
    ElsewhereBySave(book.contacts, earlier, book.addresses, id, row);
  }

  // ---------------------------------------------------------------- all of it

  /** Another merge of the two would find nothing to carry over. */
  ghost predicate NothingToCarry(
    contacts: Contacts, addresses: Addresses, capabilities: map<Id, Capability>, source: Id, target: Id)
  {
    && source in contacts && target in contacts && NothingMissing(contacts[target], contacts[source])
    && ActiveCapabilities(capabilities, source) <= ActiveCapabilities(capabilities, target)
    && Identities(AddressesOf(addresses, source)) <= Identities(AddressesOf(addresses, target))
  }

  /** The part of `merge_contacts` that does not touch the registry. */
  method MergeDetails(book: Book, source: Id, target: Id)
    requires book.Valid() && UniqueCapabilities(book.capabilities) && OneDefaultEach(book.addresses)
    requires source in book.contacts && target in book.contacts && source != target
    requires book.contacts[source].kind == book.contacts[target].kind
    modifies book
    ensures book.Valid() && UniqueCapabilities(book.capabilities) && OneDefaultEach(book.addresses)
    ensures target in book.contacts && book.contacts == old(book.contacts)[target := book.contacts[target]]
    ensures FilledIn(book.contacts[target], old(book.contacts)[target], old(book.contacts)[source])
    ensures ActiveCapabilities(book.capabilities, target)
         == ActiveCapabilities(old(book.capabilities), target) + ActiveCapabilities(old(book.capabilities), source)
    ensures forall c :: c != target ==>
      ActiveCapabilities(book.capabilities, c) == ActiveCapabilities(old(book.capabilities), c)
    ensures AddressesElsewhere(old(book.contacts), old(book.addresses), book.addresses, target)
    ensures Steady(book.contacts[target]) ==>
      var own, theirs, now := AddressesOf(old(book.addresses), target), AddressesOf(old(book.addresses), source),
          AddressesOf(book.addresses, target);
      Extended(own, theirs, now, target) && Identities(now) == Identities(own) + Identities(theirs)
    ensures NothingToCarry(old(book.contacts), old(book.addresses), old(book.capabilities), source, target) ==>
      Steady(old(book.contacts)[target]) ==>
        && book.contacts == old(book.contacts) && book.addresses == old(book.addresses)
        && book.capabilities == old(book.capabilities)
  {
    ghost var contacts, before := book.contacts, book.addresses;
    MergeScalarFields(book, source, target);
    ghost var between := book.addresses;
    MergeCapabilities(book, source, target);
    MergeAddresses(book, source, target);
    ElsewhereAfterSave(contacts, book.contacts, before, between, book.addresses, target);
  }
}
