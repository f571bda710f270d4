/** Concrete contacts whose merge the models' constraints refuse, or that leaves a copied address behind. */
module MergeWitnesses {
  import opened Ids
  import opened ContactBook
  import opened RegistryTables
  import opened RegistryWrites
  import opened AuthorizationMerge
  import opened LinkMerge
  import opened RegistryEntries
  import opened ShipperMerge
  import opened RecipientTransfer
  import opened OrganizationMerge
  import opened ContactMerge

  // ---------------------------------------------------------------- one active default, two shippers

  /** The validation that enforces one active default per link and nothing else. */
  function ConstraintRules(): Rules {
    Rules(
      (w: World, k: Id, row: Shipper) => true,
      (w: World, k: Id, row: RecipientOrganization) => true,
      (w: World, k: Id, row: RecipientContact) => true,
      (w: World, k: Id, row: Link) => true,
      (w: World, k: Id, row: Authorization) =>
        !(row.isDefault && row.active
          && exists e :: e in w.tables.authorizations && e != k && w.tables.authorizations[e].link == row.link
               && w.tables.authorizations[e].isDefault && w.tables.authorizations[e].active))
  }

  lemma ConstraintRulesExact()
    ensures Enforces(ConstraintRules(), Constraints(true, false, false))
  {
    forall w, k, row
      ensures ConstraintRules().authorization(w, k, row) <==> !IsSecondDefault(w.tables.authorizations, k, row)
    {
      var auths := w.tables.authorizations;
      if IsSecondDefault(auths, k, row) {
        var e :| e != k && ActiveDefault(auths, e, row.link);
        assert e in auths && e != k && auths[e].link == row.link && auths[e].isDefault && auths[e].active;
      }
      if !ConstraintRules().authorization(w, k, row) {
        var e :| e in auths && e != k && auths[e].link == row.link && auths[e].isDefault && auths[e].active;
        assert ActiveDefault(auths, e, row.link);
      }
    }
  }

  /** Two shippers, 1 and 2, with a link each to one recipient organization with two recipient contacts. */
  function TwoShippers(auths: map<Id, Authorization>): Tables {
    Tables(
      map[10 := Shipper(1, Some(8), Validated, false, true), 20 := Shipper(2, Some(9), Validated, false, true)],
      map[30 := RecipientOrganization(3, 7, Validated, false, true)],
      map[40 := RecipientContact(30, 5, true), 41 := RecipientContact(30, 6, true)],
      map[50 := Link(10, 30, true), 51 := Link(20, 30, true)],
      auths,
      0)
  }

  lemma TwoShippersSound(auths: map<Id, Authorization>)
    requires UniqueAuthorizations(auths) && OneDefaultPerLink(auths)
    requires forall a :: a in auths ==> auths[a].link in {50, 51} && auths[a].recipientContact in {40, 41}
    ensures Sound(TwoShippers(auths))
  {
    TwoShippersUnique(auths);
    TwoShippersResolved(auths);
  }

  lemma TwoShippersUnique(auths: map<Id, Authorization>)
    ensures UniqueShippers(TwoShippers(auths).shippers) && UniqueOrganizations(TwoShippers(auths).organizations)
    ensures UniqueRecipients(TwoShippers(auths).recipients) && UniqueLinks(TwoShippers(auths).links)
    ensures UniqueCorrespondents(TwoShippers(auths).organizations)
  {
  }

  lemma TwoShippersResolved(auths: map<Id, Authorization>)
    requires forall a :: a in auths ==> auths[a].link in {50, 51} && auths[a].recipientContact in {40, 41}
    ensures Resolved(TwoShippers(auths)) && OwnContacts(TwoShippers(auths))
  {
    var t := TwoShippers(auths);
    assert forall l :: l in t.links ==> t.links[l].recipientOrganization == 30;
    assert forall c :: c in t.recipients ==> t.recipients[c].recipientOrganization == 30;
  }

  /** The authorizations of two links with an active default each, for different contacts. */
  function TwoDefaults(): map<Id, Authorization> {
    map[60 := Authorization(50, 41, true, true), 61 := Authorization(51, 40, true, true)]
  }

  lemma TwoDefaultsBlocked()
    ensures UniqueAuthorizations(TwoDefaults()) && OneDefaultPerLink(TwoDefaults())
    ensures Blocked(TwoDefaults(), 60, 50, 51)
  {
    assert ActiveByThen(TwoDefaults(), 61, 60, 50, 51);
  }

  /** A sound registry whose merge the constraint refuses. */
  lemma TwoActiveDefaultsBlock()
    ensures Sound(TwoShippers(TwoDefaults())) && MergeBlocked(TwoShippers(TwoDefaults()), 1, 2)
  {
    TwoDefaultsBlocked();
    TwoShippersSound(TwoDefaults());
    BothShip(TwoDefaults());
  }

  /** The default of the target link is inactive, and an active authorization of the source is for the same contact. */
  function SleepingDefault(): map<Id, Authorization> {
    map[
      60 := Authorization(50, 40, false, true),
      61 := Authorization(50, 41, true, true),
      62 := Authorization(51, 40, true, false)]
  }

  lemma SleepingDefaultBlocked()
    ensures UniqueAuthorizations(SleepingDefault()) && OneDefaultPerLink(SleepingDefault())
    ensures Blocked(SleepingDefault(), 61, 50, 51)
  {
    var auths := SleepingDefault();
    assert ActivatesBefore(auths, 60, 62, 61, 50);
    assert ActiveByThen(auths, 62, 61, 50, 51);
  }

  /** Another one: no default of the target is active at first, the merge itself activates it. */
  lemma ActivatedDefaultBlocks()
    ensures Sound(TwoShippers(SleepingDefault())) && MergeBlocked(TwoShippers(SleepingDefault()), 1, 2)
    ensures forall e :: !ActiveDefault(SleepingDefault(), e, 51)
  {
    SleepingDefaultBlocked();
    TwoShippersSound(SleepingDefault());
    BothShip(SleepingDefault());
  }

  lemma BothShip(auths: map<Id, Authorization>)
    requires exists a :: Blocked(auths, a, 50, 51)
    ensures MergeBlocked(TwoShippers(auths), 1, 2)
  {
    var t := TwoShippers(auths);
    assert 10 in t.shippers && t.shippers[10].organization == 1;
    assert 20 in t.shippers && t.shippers[20].organization == 2;
    var a :| Blocked(auths, a, 50, 51);
    assert PairBlocked(OfShippers, t.links, auths, 50, 51, a, 10, 20);
  }

  /** Two recipient organizations, 1 and 2, at one destination with one person, authorized for the first. */
  function SharedPerson(): Tables {
    Tables(
      map[10 := Shipper(3, Some(9), Validated, false, true)],
      map[30 := RecipientOrganization(1, 7, Validated, false, true),
          31 := RecipientOrganization(2, 7, Validated, false, true)],
      map[40 := RecipientContact(30, 5, true), 41 := RecipientContact(31, 5, true)],
      map[50 := Link(10, 30, true)],
      map[60 := Authorization(50, 40, true, true)],
      0)
  }

  lemma SharedPersonUnique()
    ensures Unique(SharedPerson()) && UniqueCorrespondents(SharedPerson().organizations)
  {
  }

  lemma SharedPersonResolved()
    ensures Resolved(SharedPerson()) && OwnContacts(SharedPerson())
  {
    var t := SharedPerson();
    assert forall l :: l in t.links ==> t.links[l].recipientOrganization == 30;
    assert forall a :: a in t.authorizations ==> t.authorizations[a].recipientContact == 40;
  }

  /** A sound registry whose merge is refused because the person's own row has to name a contact of its link's
      organization while the authorization moves. */
  lemma SharedPersonBlocks()
    ensures Sound(SharedPerson()) && PersonsStranded(SharedPerson(), 1, 2)
  {
    var t := SharedPerson();
    SharedPersonUnique();
    SharedPersonResolved();
    assert t.organizations[30].organization == 1 && t.organizations[31].organization == 2;
    assert OrganizationFor(t.organizations, 1) == Some(30) && OrganizationFor(t.organizations, 2) == Some(31);
    SharedIsStranded(t, 40, 41, 60, 30, 31);
  }

  // ---------------------------------------------------------------- one active default, one shipper

  /** One shipper of the recipient organizations 1 and 2 at one destination, with a person each, and an authorization
      for each of them that is the active default of its link. */
  function TwoRecipients(): Tables {
    Tables(
      map[10 := Shipper(3, Some(9), Validated, false, true)],
      map[30 := RecipientOrganization(1, 7, Validated, false, true),
          31 := RecipientOrganization(2, 7, Validated, false, true)],
      map[40 := RecipientContact(30, 5, true), 41 := RecipientContact(31, 6, true)],
      map[50 := Link(10, 30, true), 51 := Link(10, 31, true)],
      map[60 := Authorization(50, 40, true, true), 61 := Authorization(51, 41, true, true)],
      0)
  }

  lemma TwoRecipientsUnique()
    ensures UniqueShippers(TwoRecipients().shippers) && UniqueOrganizations(TwoRecipients().organizations)
    ensures UniqueRecipients(TwoRecipients().recipients) && UniqueLinks(TwoRecipients().links)
    ensures UniqueCorrespondents(TwoRecipients().organizations)
  {
  }

  lemma TwoRecipientsAuthorized()
    ensures UniqueAuthorizations(TwoRecipients().authorizations) && OneDefaultPerLink(TwoRecipients().authorizations)
  {
  }

  lemma TwoRecipientsResolved()
    ensures Resolved(TwoRecipients()) && OwnContacts(TwoRecipients())
  {
  }

  lemma TwoRecipientsReceive()
    ensures OrganizationFor(TwoRecipients().organizations, 1) == Some(30)
    ensures OrganizationFor(TwoRecipients().organizations, 2) == Some(31)
  {
    var t := TwoRecipients();
    assert t.organizations[30].organization == 1 && t.organizations[31].organization == 2;
  }

  lemma TwoRecipientsBlocked()
    ensures var t := TwoRecipients();
      Resolved(t) && PersonsBlocked(t.recipients, Entries(t.links, t.authorizations), 30, 31)
  {
    var t := TwoRecipients();
    TwoRecipientsResolved();
    var f := Entries(t.links, t.authorizations);
    assert f[60] == Entry(10, 30, 40, true, true) && f[61] == Entry(10, 31, 41, true, true);
    assert f.Keys == {60, 61};
    assert PersonActiveByThen(t.recipients, f, 61, 60, 30, 31);
    assert PersonBlocked(t.recipients, f, 60, 30, 31);
  }

  lemma OwnPersonsOnly()
    ensures forall c, e, a :: !SharedStranded(TwoRecipients(), c, e, a, 30, 31)
  {
    assert TwoRecipients().recipients.Keys == {40, 41};
  }

  lemma NobodyElseInTheWay()
    ensures !DestinationsClash(TwoRecipients().organizations, 1, 2) && ShipperFor(TwoRecipients().shippers, 1).None?
    ensures !CorrespondentsBlocked(TwoRecipients().organizations, 1, 2)
  {
    TwoRecipientsReceive();
  }

  lemma TwoRecipientsSound()
    ensures Sound(TwoRecipients())
  {
    TwoRecipientsUnique();
    TwoRecipientsAuthorized();
    TwoRecipientsResolved();
  }

  /** The two recipient organizations can be merged but for their active defaults: of the three constraints only the one
      on defaults is in the way, though no shippers are merged. */
  lemma OneShipperBlocks()
    ensures Sound(TwoRecipients()) && !DestinationsClash(TwoRecipients().organizations, 1, 2)
    ensures RecipientsBlocked(TwoRecipients(), 1, 2) && !MergeBlocked(TwoRecipients(), 1, 2)
    ensures InTheWayOfRows(TwoRecipients(), 1, 2) == Constraints(true, false, false)
  {
    TwoRecipientsSound();
    OnlyDefaultsInTheWay(TwoRecipients()) by {
      TwoRecipientsBlocked();
      TwoRecipientsReceive();
      NobodyElseInTheWay();
      OwnPersonsOnly();
    }
    NobodyElseInTheWay();
  }

  lemma OnlyDefaultsInTheWay(t: Tables)
    requires Resolved(t) && ShipperFor(t.shippers, 1).None?
    requires OrganizationFor(t.organizations, 1) == Some(30) && OrganizationFor(t.organizations, 2) == Some(31)
    requires PersonsBlocked(t.recipients, Entries(t.links, t.authorizations), 30, 31)
    requires (forall c, e, a :: !SharedStranded(t, c, e, a, 30, 31)) && !CorrespondentsBlocked(t.organizations, 1, 2)
    ensures RecipientsBlocked(t, 1, 2) && !MergeBlocked(t, 1, 2)
    ensures InTheWayOfRows(t, 1, 2) == Constraints(true, false, false)
  {
  }

  // ---------------------------------------------------------------- one active correspondent

  /** Two recipient organizations, 1 and 2, at one destination; the first is the correspondent there. */
  function TwoReceivers(): Tables {
    Tables(
      map[],
      map[30 := RecipientOrganization(1, 7, Validated, true, true),
          31 := RecipientOrganization(2, 7, Validated, false, true)],
      map[], map[], map[], 0)
  }

  lemma TwoReceiversSound()
    ensures Sound(TwoReceivers())
  {
  }

  /** Nothing but flags is merged, and the constraint on correspondents is in the way. */
  lemma CorrespondentBlocks()
    ensures Sound(TwoReceivers()) && !DestinationsClash(TwoReceivers().organizations, 1, 2)
    ensures InTheWayOfRows(TwoReceivers(), 1, 2) == Constraints(false, false, true)
  {
    var t := TwoReceivers();
    TwoReceiversSound();
    assert t.organizations[30].organization == 1 && t.organizations[31].organization == 2;
    assert OrganizationFor(t.organizations, 1) == Some(30) && OrganizationFor(t.organizations, 2) == Some(31);
    assert ShipperFor(t.shippers, 1).None? && EntriesAfterShippers(t, 1, 2) == map[];
  }

  // ---------------------------------------------------------------- a copied address that stays

  const OLD := Postal("1 rue A", "", "10000", "A", "", "FR")
  const NEW := Postal("2 rue B", "", "20000", "B", "", "FR")

  function Firm(name: string): Contact {
    Contact(Kind.Organization, name, None, false, true, map[])
  }

  function DefaultAt(contact: Id, postal: Postal): Address {
    Address(contact, "", postal, "", "", true, "")
  }

  /** Two organizations, 1 and 2, with a default address each, and a person, 3, that follows the first one's. */
  function OneFollower(): Snapshot {
    Snapshot(
      map[1 := Firm("A"), 2 := Firm("B"), 3 := Contact(Person, "C", Some(1), true, true, map[])],
      map[11 := DefaultAt(1, OLD), 12 := DefaultAt(2, NEW), 13 := DefaultAt(3, OLD)],
      map[], Tables(map[], map[], map[], map[], map[], 0), map[])
  }

  /** Nothing is in the way of merging 1 into 2. */
  lemma OneFollowerMerges()
    ensures WellLinked(OneFollower().contacts, OneFollower().addresses) && OneDefaultEach(OneFollower().addresses)
    ensures Mergeable(OneFollower().contacts, OneFollower().tables, 1, 2)
    ensures InTheWayOf(OneFollower().contacts, OneFollower().tables, 1, 2) == Constraints(false, false, false)
  {
    assert ShipperFor(OneFollower().tables.shippers, 1).None?;
    assert OrganizationFor(OneFollower().tables.organizations, 1).None?;
  }

  /** Whatever the merge leaves, the person follows 2 and has a default address that is not its. */
  lemma FollowerKeepsOldAddress(after: Snapshot)
    requires MergedInto(OneFollower(), after, 1, 2)
    ensures Follows(after.contacts, 3, 2) && DefaultPostalIs(after.addresses, 2, NEW)
    ensures DefaultPostalIs(after.addresses, 3, OLD) && !DefaultPostalIs(after.addresses, 3, NEW)
  {
    FollowerStaysBehind(OneFollower(), after, 1, 2, 3, OLD, NEW) by {
      OneFollowerMerges();
      OnlyTheOldAddress();
    }
  }

  lemma OnlyTheOldAddress()
    ensures var addresses := OneFollower().addresses;
      DefaultPostalIs(addresses, 2, NEW) && DefaultPostalIs(addresses, 3, OLD) && !DefaultPostalIs(addresses, 3, NEW)
  {
    var addresses := OneFollower().addresses;
    assert addresses[12] == DefaultAt(2, NEW) && addresses[13] == DefaultAt(3, OLD) && addresses.Keys == {11, 12, 13};
    assert OLD.line1[0] != NEW.line1[0];
  }
}
