/** Contacts and their postal addresses: the save hooks of contacts/models.py.

    Saving a default address of an organization copies it to every member that uses the
    organization's address; saving that copy runs the same hook again. */
module ContactBook {
  import opened Ids

  datatype Kind = Organization | Person

  /** The seven text columns that a merge may fill in. */
  datatype Field = Title | Email | Email2 | Phone | Phone2 | Role | Notes

  datatype Contact = Contact(
    kind: Kind,
    name: string,
    organization: Option<Id>,
    useOrganizationAddress: bool,
    active: bool,
    texts: map<Field, string>)

  datatype Postal = Postal(
    line1: string, line2: string, postalCode: string, city: string, region: string, country: string)

  datatype Address = Address(
    contact: Id, heading: string, postal: Postal, phone: string, email: string, isDefault: bool, notes: string)

  datatype CapabilityType = Donor | Transporter | Volunteer

  datatype Capability = Capability(contact: Id, capability: CapabilityType, active: bool)

  type Contacts = map<Id, Contact>
  type Addresses = map<Id, Address>

  /** Foreign keys resolve, and only a person has an organization. */
  predicate WellLinked(contacts: Contacts, addresses: Addresses) {
    && (forall a :: a in addresses ==> addresses[a].contact in contacts)
    && MembersArePersons(contacts)
  }

  predicate MembersArePersons(contacts: Contacts) {
    forall c :: c in contacts && contacts[c].organization.Some? ==>
      contacts[c].kind.Person? && contacts[c].organization.value in contacts
  }

  predicate OneDefaultFor(addresses: Addresses, contact: Id) {
    forall a, b | a in addresses && b in addresses
      && addresses[a].contact == contact && addresses[a].isDefault
      && addresses[b].contact == contact && addresses[b].isDefault :: a == b
  }

  /** No contact has two default addresses. */
  predicate OneDefaultEach(addresses: Addresses) {
    forall a, b | a in addresses && b in addresses && addresses[a].isDefault && addresses[b].isDefault
      && addresses[a].contact == addresses[b].contact :: a == b
  }

  function AddressesOf(addresses: Addresses, contact: Id): Addresses {
    map a | a in addresses && addresses[a].contact == contact :: addresses[a]
  }

  /** Addresses the contact follows its organization for. */
  predicate Follows(contacts: Contacts, member: Id, organization: Id) {
    && member in contacts
    && contacts[member].organization == Some(organization)
    && contacts[member].useOrganizationAddress
  }

  /** The contact has a default address and its six postal fields are these. */
  ghost predicate DefaultPostalIs(addresses: Addresses, contact: Id, postal: Postal) {
    exists a :: a in addresses && addresses[a].contact == contact && addresses[a].isDefault
      && addresses[a].postal == postal
  }

  /** A postal address the organization may hand down: its default one if it has any, else any of its own. */
  ghost predicate HandsDown(addresses: Addresses, organization: Id, postal: Postal) {
    || DefaultPostalIs(addresses, organization, postal)
    || (&& (forall a :: a in addresses && addresses[a].contact == organization ==> !addresses[a].isDefault)
        && (exists a :: a in addresses && addresses[a].contact == organization && addresses[a].postal == postal))
  }

  ghost predicate HasAddress(addresses: Addresses, contact: Id) {
    exists a :: a in addresses && addresses[a].contact == contact
  }

  ghost predicate HasDefault(addresses: Addresses, contact: Id) {
    exists a :: a in addresses && addresses[a].contact == contact && addresses[a].isDefault
  }

  /** The row a member's default address becomes: the six fields are copied, the other columns stay. */
  function Copy(own: Addresses, id: Id, member: Id, postal: Postal): (row: Address) {
    if id in own then own[id].(postal := postal) else Address(member, "", postal, "", "", true, "")
  }

  /** A member's own addresses after a copy: its default row, or else one new default row, carries the six fields. */
  ghost predicate CopiedInto(before: Addresses, after: Addresses, member: Id, postal: Postal) {
    exists id :: CopiedAt(before, after, member, postal, id)
  }

  ghost predicate CopiedAt(before: Addresses, after: Addresses, member: Id, postal: Postal, id: Id) {
    && (if HasDefault(before, member) then id in before && before[id].contact == member && before[id].isDefault
      else id !in before)
    && after == Stored(before, id, Copy(before, id, member, postal))
  }

  /** The member's default address now carries what the organization handed down. */
  ghost predicate Inherited(before: Addresses, after: Addresses, organization: Id, member: Id) {
    exists postal :: HandsDown(before, organization, postal)
      && CopiedInto(AddressesOf(before, member), AddressesOf(after, member), member, postal)
  }

  /** No row of the contact but one stays a default. */
  function ClearDefaults(addresses: Addresses, contact: Id, keep: Id): (cleared: Addresses) {
    map a | a in addresses ::
      if addresses[a].contact == contact && a != keep then addresses[a].(isDefault := false) else addresses[a]
  }

  /** What the row itself becomes on save: stored, and the only default of its contact if it is one. */
  function Stored(addresses: Addresses, id: Id, row: Address): (stored: Addresses) {
    (if row.isDefault then ClearDefaults(addresses, row.contact, id) else addresses)[id := row]
  }

  /** The contact gets a copy of the row when it is saved. */
  predicate GetsCopy(contacts: Contacts, row: Address, c: Id)
    requires row.contact in contacts
  {
    contacts[row.contact].kind.Organization? && row.isDefault && Follows(contacts, c, row.contact)
  }

  /** A contact's addresses after the row is saved: those that storing the row leaves, with a copy if it gets one. */
  ghost predicate SavedFor(contacts: Contacts, before: Addresses, after: Addresses, id: Id, row: Address, c: Id)
    requires row.contact in contacts
  {
    var own, now := AddressesOf(Stored(before, id, row), c), AddressesOf(after, c);
    if GetsCopy(contacts, row, c) then CopiedInto(own, now, c, row.postal) else now == own
  }

  lemma StoredKeepsOneDefault(addresses: Addresses, id: Id, row: Address)
    requires OneDefaultEach(addresses)
    ensures OneDefaultEach(Stored(addresses, id, row))
  {
  }

  /** The capabilities a contact holds through an active row. */
  function ActiveCapabilities(capabilities: map<Id, Capability>, contact: Id): set<CapabilityType> {
    set k | k in capabilities && capabilities[k].contact == contact && capabilities[k].active ::
      capabilities[k].capability
  }

  /** The contact has an active row for the capability. */
  ghost predicate HasCapability(capabilities: map<Id, Capability>, contact: Id, capability: CapabilityType) {
    exists k :: k in capabilities && capabilities[k] == Capability(contact, capability, true)
  }

  lemma HasIffActive(capabilities: map<Id, Capability>, contact: Id, capability: CapabilityType)
    ensures capability in ActiveCapabilities(capabilities, contact) <==>
      HasCapability(capabilities, contact, capability)
  {
    if capability in ActiveCapabilities(capabilities, contact) {
      var k :| k in capabilities && capabilities[k].contact == contact && capabilities[k].active
        && capabilities[k].capability == capability;
      assert capabilities[k] == Capability(contact, capability, true);
    }
  }

  /** The database allows one row per contact and capability. */
  ghost predicate UniqueCapabilities(capabilities: map<Id, Capability>) {
    forall k, k' | k in capabilities && k' in capabilities && capabilities[k].contact == capabilities[k'].contact
      && capabilities[k].capability == capabilities[k'].capability :: k == k'
  }

  class Book {
    var contacts: Contacts
    var addresses: Addresses
    var capabilities: map<Id, Capability>

    predicate Valid()
      reads this
    {
      WellLinked(contacts, addresses)
    }

    constructor ()
      ensures Valid() && contacts == map[] && addresses == map[] && capabilities == map[]
    {
      contacts, addresses, capabilities := map[], map[], map[];
    }

    /** `ensure_contact_capability` */
    method EnsureCapability(contact: Id, capability: CapabilityType)
      modifies this`capabilities
      ensures ActiveCapabilities(capabilities, contact) == ActiveCapabilities(old(capabilities), contact) + {capability}
      ensures HasCapability(capabilities, contact, capability)
      ensures forall c :: c != contact ==>
        ActiveCapabilities(capabilities, c) == ActiveCapabilities(old(capabilities), c)
      ensures UniqueCapabilities(old(capabilities)) ==> UniqueCapabilities(capabilities)
      ensures UniqueCapabilities(old(capabilities)) && capability in ActiveCapabilities(old(capabilities), contact) ==>
        capabilities == old(capabilities)
    {
      ghost var before := capabilities;
      var rows := set k | k in capabilities && capabilities[k].contact == contact
          && capabilities[k].capability == capability;
      var id;
      if rows == {} {
        id := FreshId(capabilities.Keys);
        assert forall k ::
          k in capabilities && capabilities[k].contact == contact && capabilities[k].capability == capability ==>
            k in rows;
        capabilities := capabilities[id := Capability(contact, capability, true)];
      } else {
        id :| id in rows;
        if !capabilities[id].active {
          capabilities := capabilities[id := capabilities[id].(active := true)];
        }
      }
      CapabilityEnsured(before, capabilities, id, contact, capability);
      assert capabilities[id] == Capability(contact, capability, true);
    }

    /** `ContactAddress.save`: at most two levels of recursion, since the members of an organization are persons. A row
        that was another contact's leaves that contact. */
    method SaveAddress(id: Id, row: Address)
      requires Valid() && row.contact in contacts
      modifies this`addresses
      ensures Valid()
      ensures old(addresses).Keys + {id} <= addresses.Keys
      ensures forall c :: SavedFor(contacts, old(addresses), addresses, id, row, c)
      ensures OneDefaultEach(old(addresses)) ==> OneDefaultEach(addresses)
      decreases if contacts[row.contact].kind.Organization? then 1 else 0, 0
    {
      StoreAddress(id, row);
      if contacts[row.contact].kind.Organization? && row.isDefault {
        assert addresses[id] == row;
        SyncPeople(row.contact, row.postal);
      }
    }

    /** The part of `ContactAddress.save` that touches the contact's own rows. */
    method StoreAddress(id: Id, row: Address)
      requires Valid() && row.contact in contacts
      modifies this`addresses
      ensures Valid() && id in addresses && addresses[id] == row && addresses == Stored(old(addresses), id, row)
      ensures row.isDefault ==> OneDefaultFor(addresses, row.contact)
      ensures OneDefaultEach(old(addresses)) ==> OneDefaultEach(addresses)
    {
      StoredOnlyDefault(addresses, id, row);
      if OneDefaultEach(addresses) { StoredKeepsOneDefault(addresses, id, row); }
      if row.isDefault {
        addresses := ClearDefaults(addresses, row.contact, id);
      }
      addresses := addresses[id := row];
    }

    /** `_sync_people_for_org` */
    method SyncPeople(organization: Id, ghost postal: Postal)
      requires Valid() && organization in contacts && contacts[organization].kind.Organization?
      requires DefaultPostalIs(addresses, organization, postal) && OneDefaultFor(addresses, organization)
      modifies this`addresses
      ensures Valid()
      ensures old(addresses).Keys <= addresses.Keys
      ensures forall c :: !Follows(contacts, c, organization) ==>
        AddressesOf(addresses, c) == AddressesOf(old(addresses), c)
      ensures forall c :: Follows(contacts, c, organization) ==>
        CopiedInto(AddressesOf(old(addresses), c), AddressesOf(addresses, c), c, postal)
      ensures OneDefaultEach(old(addresses)) ==> OneDefaultEach(addresses)
      decreases 0, 2
    {
      var pending := set c | c in contacts && Follows(contacts, c, organization);
      while pending != {}
        invariant Valid()
        invariant old(addresses).Keys <= addresses.Keys
        invariant forall c :: c in pending ==> Follows(contacts, c, organization)
        invariant forall c :: !Follows(contacts, c, organization) ==>
          AddressesOf(addresses, c) == AddressesOf(old(addresses), c)
        invariant forall c :: c in pending ==> AddressesOf(addresses, c) == AddressesOf(old(addresses), c)
        invariant forall c :: Follows(contacts, c, organization) && c !in pending ==>
          CopiedInto(AddressesOf(old(addresses), c), AddressesOf(addresses, c), c, postal)
        invariant OneDefaultEach(old(addresses)) ==> OneDefaultEach(addresses)
        decreases pending
      {
        var person :| person in pending;
        HandedDownIsDefault(old(addresses), addresses, organization, postal);
        SyncFromOrganization(person);
        pending := pending - {person};
      }
    }

    /** `_sync_contact_address_from_org` */
    method SyncFromOrganization(person: Id)
      requires Valid() && person in contacts && contacts[person].kind.Person?
      modifies this`addresses
      ensures Valid()
      ensures old(addresses).Keys <= addresses.Keys
      ensures forall c :: c != person ==> AddressesOf(addresses, c) == AddressesOf(old(addresses), c)
      ensures OneDefaultEach(old(addresses)) ==> OneDefaultEach(addresses)
      ensures
        var organization := contacts[person].organization;
        if contacts[person].useOrganizationAddress && organization.Some?
            && HasAddress(old(addresses), organization.value)
        then Inherited(old(addresses), addresses, organization.value, person)
        else addresses == old(addresses)
      decreases 0, 1
    {
      if !contacts[person].useOrganizationAddress || contacts[person].organization.None? {
        return;
      }
      var found := OwnAddress(contacts[person].organization.value);
      if found.None? {
        return;
      }
      var id := DefaultRow(person);
      var row := Copy(addresses, id, person, found.value);
      ghost var before := addresses;
      SaveAddress(id, row);
      SavedOwn(contacts, before, addresses, id, row);
      assert CopiedAt(AddressesOf(old(addresses), person), AddressesOf(addresses, person), person, found.value, id);
    }

    /** The row that a copy goes to: the person's default address, or a new one. */
    method DefaultRow(person: Id) returns (id: Id)
      ensures id in addresses ==> addresses[id].contact == person && addresses[id].isDefault
      ensures id in addresses <==> HasDefault(AddressesOf(addresses, person), person)
    {
      OwnDefaults(addresses, person);
      var mine := set a | a in addresses && addresses[a].contact == person && addresses[a].isDefault;
      assert forall a :: a in addresses && addresses[a].contact == person && addresses[a].isDefault ==> a in mine;
      if mine != {} {
        id :| id in mine;
      } else {
        id := FreshId(addresses.Keys);
      }
    }

    /** The address to hand down: a default one if there is any, else any. */
    method OwnAddress(organization: Id) returns (found: Option<Postal>)
      ensures found.None? <==> !HasAddress(addresses, organization)
      ensures found.Some? ==> HandsDown(addresses, organization, found.value)
    {
      var own := set a | a in addresses && addresses[a].contact == organization;
      var defaults := set a | a in own && addresses[a].isDefault;
      assert forall a :: a in addresses && addresses[a].contact == organization ==> a in own;
      assert forall a :: a in own && addresses[a].isDefault ==> a in defaults;
      if defaults != {} {
        var a :| a in defaults;
        found := Some(addresses[a].postal);
      } else if own != {} {
        var a :| a in own;
        found := Some(addresses[a].postal);
      } else {
        found := None;
      }
    }

    /** `Contact.save` of named columns, as merges and promotions call it: the name that it derives for a nameless
        person is none of them and stays unwritten. */
    method SaveContact(id: Id, row: Contact)
      requires Valid() && WellLinked(contacts[id := row], addresses)
      modifies this`contacts, this`addresses
      ensures Valid()
      ensures contacts == old(contacts)[id := row]
      ensures old(addresses).Keys <= addresses.Keys
      ensures forall c :: c != id ==> AddressesOf(addresses, c) == AddressesOf(old(addresses), c)
      ensures OneDefaultEach(old(addresses)) ==> OneDefaultEach(addresses)
      ensures
        if row.kind.Person? && row.useOrganizationAddress && row.organization.Some?
            && HasAddress(old(addresses), row.organization.value)
        then Inherited(old(addresses), addresses, row.organization.value, id)
        else addresses == old(addresses)
    {
      contacts := contacts[id := row];
      if row.kind.Person? && row.useOrganizationAddress {
        SyncFromOrganization(id);
      }
    }
  }

  lemma CapabilityEnsured(
    before: map<Id, Capability>, after: map<Id, Capability>, id: Id, contact: Id, capability: CapabilityType)
    requires after == before[id := Capability(contact, capability, true)]
    requires id in before ==> before[id].contact == contact && before[id].capability == capability
    ensures ActiveCapabilities(after, contact) == ActiveCapabilities(before, contact) + {capability}
    ensures forall c :: c != contact ==> ActiveCapabilities(after, c) == ActiveCapabilities(before, c)
  {
    assert after[id].active;
    forall c, x | x in ActiveCapabilities(before, c)
      ensures x in ActiveCapabilities(after, c)
    {
      var k :| k in before && before[k].contact == c && before[k].active && before[k].capability == x;
      assert after[k].contact == c && after[k].active && after[k].capability == x;
    }
    forall c, x | x in ActiveCapabilities(after, c)
      ensures x in ActiveCapabilities(before, c) || (c == contact && x == capability)
    {
      var k :| k in after && after[k].contact == c && after[k].active && after[k].capability == x;
      if k != id { assert before[k] == after[k]; }
    }
  }

  lemma StoredOnlyDefault(addresses: Addresses, id: Id, row: Address)
    ensures row.isDefault ==> OneDefaultFor(Stored(addresses, id, row), row.contact)
  {
  }

  /** A person's own row, saved: the person's addresses change and nobody else's. */
  lemma SavedOwn(contacts: Contacts, before: Addresses, after: Addresses, id: Id, row: Address)
    requires row.contact in contacts && contacts[row.contact].kind.Person?
    requires id in before ==> before[id].contact == row.contact
    requires forall c :: SavedFor(contacts, before, after, id, row, c)
    ensures AddressesOf(after, row.contact) == Stored(AddressesOf(before, row.contact), id, row)
    ensures forall c :: c != row.contact ==> AddressesOf(after, c) == AddressesOf(before, c)
  {
    StoredOwn(before, id, row);
    StoredForOthers(before, id, row);
    forall c ensures AddressesOf(after, c) == AddressesOf(Stored(before, id, row), c) {
      assert SavedFor(contacts, before, after, id, row, c);
    }
  }

  /** A row that was nobody else's changes nobody else's addresses. */
  lemma StoredForOthers(addresses: Addresses, id: Id, row: Address)
    requires id in addresses ==> addresses[id].contact == row.contact
    ensures forall c :: c != row.contact ==> AddressesOf(Stored(addresses, id, row), c) == AddressesOf(addresses, c)
  {
  }

  lemma StoredOwn(addresses: Addresses, id: Id, row: Address)
    requires id in addresses ==> addresses[id].contact == row.contact
    ensures AddressesOf(Stored(addresses, id, row), row.contact) == Stored(AddressesOf(addresses, row.contact), id, row)
  {
  }

  lemma OwnDefaults(addresses: Addresses, contact: Id)
    ensures HasDefault(addresses, contact) <==> HasDefault(AddressesOf(addresses, contact), contact)
    ensures forall postal :: DefaultPostalIs(addresses, contact, postal) <==>
      DefaultPostalIs(AddressesOf(addresses, contact), contact, postal)
  {
    assert forall a :: a in AddressesOf(addresses, contact) <==> a in addresses && addresses[a].contact == contact;
  }

  /** After a copy the member has one default address and its six postal fields are the organization's. */
  lemma CopyIsOnlyDefault(before: Addresses, after: Addresses, member: Id, postal: Postal)
    requires CopiedInto(AddressesOf(before, member), AddressesOf(after, member), member, postal)
    ensures DefaultPostalIs(after, member, postal) && OneDefaultFor(after, member)
  {
    var own, now := AddressesOf(before, member), AddressesOf(after, member);
    var id :| CopiedAt(own, now, member, postal, id);
    OwnDefaults(after, member);
    assert now[id] == Copy(own, id, member, postal);
    assert forall a :: a in now <==> a in after && after[a].contact == member;
  }

  lemma SameAddressesSameDefault(before: Addresses, after: Addresses, contact: Id, postal: Postal)
    requires AddressesOf(before, contact) == AddressesOf(after, contact)
    ensures DefaultPostalIs(before, contact, postal) <==> DefaultPostalIs(after, contact, postal)
    ensures OneDefaultFor(before, contact) <==> OneDefaultFor(after, contact)
  {
    assert forall a :: a in AddressesOf(before, contact) <==> a in before && before[a].contact == contact;
    assert forall a :: a in AddressesOf(after, contact) <==> a in after && after[a].contact == contact;
    if DefaultPostalIs(before, contact, postal) {
      var a :| a in before && before[a].contact == contact && before[a].isDefault && before[a].postal == postal;
      assert a in AddressesOf(after, contact) && AddressesOf(after, contact)[a] == before[a];
    }
    if DefaultPostalIs(after, contact, postal) {
      var a :| a in after && after[a].contact == contact && after[a].isDefault && after[a].postal == postal;
      assert a in AddressesOf(before, contact) && AddressesOf(before, contact)[a] == after[a];
    }
  }

  /** What an organization with one default address hands down stays the same while its own addresses do. */
  lemma HandedDownIsDefault(before: Addresses, after: Addresses, organization: Id, postal: Postal)
    requires AddressesOf(before, organization) == AddressesOf(after, organization)
    requires DefaultPostalIs(before, organization, postal) && OneDefaultFor(before, organization)
    ensures forall other :: HandsDown(after, organization, other) <==> other == postal
    ensures HasAddress(after, organization)
  {
    SameAddressesSameDefault(before, after, organization, postal);
  }

  // ---------------------------------------------------------------- what a save leaves of the rows

  /** The columns that a copied address never touches. */
  ghost predicate SameBesidesPostal(a: Address, b: Address) {
    a.contact == b.contact && a.heading == b.heading && a.phone == b.phone && a.email == b.email && a.notes == b.notes
  }

  ghost predicate Owns(addresses: Addresses, a: Id, contact: Id) {
    a in addresses && addresses[a].contact == contact
  }

  /** A copy leaves the member every row it had, with heading, phone, e-mail and notes; it writes the postal fields of a
      default row, or of a new one if there was no default. */
  lemma CopyKeepsRows(before: Addresses, after: Addresses, member: Id, postal: Postal)
    requires CopiedInto(AddressesOf(before, member), AddressesOf(after, member), member, postal)
    ensures forall a :: Owns(before, a, member) ==> Owns(after, a, member) && SameBesidesPostal(after[a], before[a])
    ensures forall a :: Owns(before, a, member) && !before[a].isDefault ==> a in after && after[a] == before[a]
    ensures forall a :: Owns(after, a, member) && !Owns(before, a, member) ==>
      && after[a] == Address(member, "", postal, "", "", true, "")
      && (forall b :: Owns(before, b, member) ==> !before[b].isDefault)
    ensures forall a, b | Owns(after, a, member) && Owns(after, b, member) ::
      a == b || Owns(before, a, member) || Owns(before, b, member)
  {
    var own, now := AddressesOf(before, member), AddressesOf(after, member);
    var id :| CopiedAt(own, now, member, postal, id);
    assert forall a :: Owns(before, a, member) <==> a in own;
    assert forall a :: Owns(after, a, member) <==> a in now;
    CopiedColumns(own, now, member, postal, id);
    OwnDefaults(before, member);
  }

  lemma CopiedColumns(own: Addresses, now: Addresses, member: Id, postal: Postal, id: Id)
    requires CopiedAt(own, now, member, postal, id) && forall a :: a in own ==> own[a].contact == member
    ensures forall a :: a in own ==> a in now && now[a].contact == member && SameBesidesPostal(now[a], own[a])
    ensures forall a :: a in own && !own[a].isDefault ==> now[a] == own[a]
    ensures forall a :: a in now && a !in own ==>
      a == id && now[a] == Address(member, "", postal, "", "", true, "") && !HasDefault(own, member)
  {
  }

  /** Saving a row writes that row. Other rows keep their columns, but for the default flag of the contact's others and
      the postal fields of the default rows of members that get a copy. */
  lemma SaveKeepsRows(contacts: Contacts, before: Addresses, after: Addresses, id: Id, row: Address, a: Id)
    requires row.contact in contacts && MembersArePersons(contacts)
    requires forall c :: SavedFor(contacts, before, after, id, row, c)
    ensures id in after && after[id] == row
    ensures a in before && a != id ==> a in after && SameBesidesPostal(after[a], before[a])
    ensures a in before && a != id && !GetsCopy(contacts, row, before[a].contact) ==>
      && after[a].postal == before[a].postal
      && (after[a].isDefault <==> before[a].isDefault && !(row.isDefault && before[a].contact == row.contact))
    ensures a in before && a != id && !before[a].isDefault ==> after[a] == before[a]
    ensures a in after && a !in before && a != id ==>
      GetsCopy(contacts, row, after[a].contact) && after[a].postal == row.postal && after[a].isDefault
  {
    SavedOne(contacts, before, after, id, row, id);
    SavedOne(contacts, before, after, id, row, a);
  }

  lemma SavedOne(contacts: Contacts, before: Addresses, after: Addresses, id: Id, row: Address, a: Id)
    requires row.contact in contacts && MembersArePersons(contacts)
    requires forall c :: SavedFor(contacts, before, after, id, row, c)
    ensures var stored := Stored(before, id, row);
      && (a in stored ==>
            && a in after && SameBesidesPostal(after[a], stored[a])
            && (!stored[a].isDefault || !GetsCopy(contacts, row, stored[a].contact) ==> after[a] == stored[a]))
      && (a in after && a !in stored ==>
            GetsCopy(contacts, row, after[a].contact) && after[a].postal == row.postal && after[a].isDefault)
  {
    var stored := Stored(before, id, row);
    if a in stored {
      var c := stored[a].contact;
      assert SavedFor(contacts, before, after, id, row, c);
      assert a in AddressesOf(stored, c);
      if GetsCopy(contacts, row, c) {
        AddressesTwice(stored, c);
        AddressesTwice(after, c);
        CopyKeepsRows(stored, after, c, row.postal);
        assert Owns(stored, a, c);
      } else {
        assert a in AddressesOf(after, c);
      }
    }
    if a in after && a !in stored {
      var c := after[a].contact;
      assert SavedFor(contacts, before, after, id, row, c);
      assert a in AddressesOf(after, c);
      assert a !in AddressesOf(stored, c);
      CopyKeepsRows(stored, after, c, row.postal);
      assert Owns(after, a, c) && !Owns(stored, a, c);
    }
  }

  lemma AddressesTwice(addresses: Addresses, contact: Id)
    ensures AddressesOf(AddressesOf(addresses, contact), contact) == AddressesOf(addresses, contact)
  {
  }
}
