/** The five shipment-party tables and the relation over contacts that they encode.

    A merge is judged by that relation, read with the source contact renamed to the target: every single
    write of a merge must leave the renamed relation alone. */
module RegistryTables {
  import opened Ids

  datatype Status = Pending | Validated | Rejected

  datatype Shipper = Shipper(
    organization: Id, defaultContact: Option<Id>, status: Status, canSendToAll: bool, active: bool)
  datatype RecipientOrganization = RecipientOrganization(
    organization: Id, destination: Id, status: Status, isCorrespondent: bool, active: bool)
  datatype RecipientContact = RecipientContact(recipientOrganization: Id, contact: Id, active: bool)
  datatype Link = Link(shipper: Id, recipientOrganization: Id, active: bool)
  datatype Authorization = Authorization(link: Id, recipientContact: Id, isDefault: bool, active: bool)

  datatype Tables = Tables(
    shippers: map<Id, Shipper>,
    organizations: map<Id, RecipientOrganization>,
    recipients: map<Id, RecipientContact>,
    links: map<Id, Link>,
    authorizations: map<Id, Authorization>,
    cascaded: nat)   // rows that ON DELETE CASCADE has removed so far

  // ---------------------------------------------------------------- invariants

  /** Every foreign key between the five tables resolves. */
  ghost predicate Resolved(t: Tables) {
    && (forall c :: c in t.recipients ==> t.recipients[c].recipientOrganization in t.organizations)
    && (forall l :: l in t.links ==>
          t.links[l].shipper in t.shippers && t.links[l].recipientOrganization in t.organizations)
    && (forall a :: a in t.authorizations ==>
          t.authorizations[a].link in t.links && t.authorizations[a].recipientContact in t.recipients)
  }

  // Two rows under one key. Uniqueness is stated through these names, pair by pair.

  ghost predicate SameShipper(shippers: map<Id, Shipper>, s: Id, s': Id) {
    s in shippers && s' in shippers && shippers[s].organization == shippers[s'].organization
  }

  ghost predicate SameOrganization(organizations: map<Id, RecipientOrganization>, o: Id, o': Id) {
    o in organizations && o' in organizations && organizations[o].organization == organizations[o'].organization
  }

  ghost predicate SameRecipient(recipients: map<Id, RecipientContact>, c: Id, c': Id) {
    && c in recipients && c' in recipients
    && recipients[c].recipientOrganization == recipients[c'].recipientOrganization
    && recipients[c].contact == recipients[c'].contact
  }

  ghost predicate SameLink(links: map<Id, Link>, l: Id, l': Id) {
    && l in links && l' in links
    && links[l].shipper == links[l'].shipper && links[l].recipientOrganization == links[l'].recipientOrganization
  }

  ghost predicate SameSlot(auths: map<Id, Authorization>, a: Id, a': Id) {
    a in auths && a' in auths && auths[a].link == auths[a'].link
      && auths[a].recipientContact == auths[a'].recipientContact
  }

  ghost predicate BothDefault(auths: map<Id, Authorization>, a: Id, a': Id) {
    a in auths && a' in auths && auths[a].isDefault && auths[a'].isDefault && auths[a].link == auths[a'].link
  }

  ghost predicate BothCorrespond(organizations: map<Id, RecipientOrganization>, o: Id, o': Id) {
    && o in organizations && o' in organizations
    && organizations[o].isCorrespondent && organizations[o'].isCorrespondent
    && organizations[o].destination == organizations[o'].destination
  }

  ghost predicate UniqueShippers(shippers: map<Id, Shipper>) {
    forall s, s' :: SameShipper(shippers, s, s') ==> s == s'
  }

  ghost predicate UniqueOrganizations(organizations: map<Id, RecipientOrganization>) {
    forall o, o' :: SameOrganization(organizations, o, o') ==> o == o'
  }

  ghost predicate UniqueRecipients(recipients: map<Id, RecipientContact>) {
    forall c, c' :: SameRecipient(recipients, c, c') ==> c == c'
  }

  ghost predicate UniqueLinks(links: map<Id, Link>) {
    forall l, l' :: SameLink(links, l, l') ==> l == l'
  }

  ghost predicate UniqueAuthorizations(auths: map<Id, Authorization>) {
    forall a, a' :: SameSlot(auths, a, a') ==> a == a'
  }

  ghost predicate OneDefaultPerLink(auths: map<Id, Authorization>) {
    forall a, a' :: BothDefault(auths, a, a') ==> a == a'
  }

  ghost predicate Unique(t: Tables) {
    && UniqueShippers(t.shippers) && UniqueOrganizations(t.organizations) && UniqueRecipients(t.recipients)
    && UniqueLinks(t.links) && UniqueAuthorizations(t.authorizations) && OneDefaultPerLink(t.authorizations)
  }

  /** Each authorized person is a recipient contact of the link's own recipient organization. */
  ghost predicate OwnContacts(t: Tables)
    requires Resolved(t)
  {
    forall a :: a in t.authorizations ==>
      t.recipients[t.authorizations[a].recipientContact].recipientOrganization
        == t.links[t.authorizations[a].link].recipientOrganization
  }

  ghost predicate UniqueCorrespondents(organizations: map<Id, RecipientOrganization>) {
    forall o, o' :: BothCorrespond(organizations, o, o') ==> o == o'
  }

  /** The registry invariant. */
  ghost predicate Sound(t: Tables) {
    Resolved(t) && Unique(t) && OwnContacts(t) && UniqueCorrespondents(t.organizations)
  }

  // ---------------------------------------------------------------- what the tables state

  datatype Pair = Pair(left: Id, right: Id)

  datatype Triple = Triple(shipper: Id, organization: Id, person: Id)

  /** Everything the tables say about contacts, row keys forgotten. */
  datatype View = View(
    shippers: set<Id>,
    organizations: set<Pair>,   // (organization, destination)
    recipients: set<Pair>,      // (organization, person)
    links: set<Pair>,           // (shipper, organization)
    authorized: set<Triple>,
    active: set<Triple>,        // authorized by an active row
    withDefault: set<Pair>,     // links that have a default contact
    defaults: set<Triple>)      // authorized by a default row

  function LinkPair(t: Tables, l: Id): Pair
    requires Resolved(t) && l in t.links
  {
    Pair(t.shippers[t.links[l].shipper].organization, t.organizations[t.links[l].recipientOrganization].organization)
  }

  function RecipientPair(t: Tables, c: Id): Pair
    requires Resolved(t) && c in t.recipients
  {
    Pair(t.organizations[t.recipients[c].recipientOrganization].organization, t.recipients[c].contact)
  }

  /** The (shipper organization, recipient organization, contact) of an authorization. */
  function TripleOf(t: Tables, a: Id): Triple
    requires Resolved(t) && a in t.authorizations
  {
    var pair := LinkPair(t, t.authorizations[a].link);
    Triple(pair.left, pair.right, t.recipients[t.authorizations[a].recipientContact].contact)
  }

  ghost function Stated(t: Tables): View
    requires Resolved(t)
  {
    View(
      set s | s in t.shippers :: t.shippers[s].organization,
      set o | o in t.organizations :: Pair(t.organizations[o].organization, t.organizations[o].destination),
      set c | c in t.recipients :: RecipientPair(t, c),
      set l | l in t.links :: LinkPair(t, l),
      set a | a in t.authorizations :: TripleOf(t, a),
      set a | a in t.authorizations && t.authorizations[a].active :: TripleOf(t, a),
      set a | a in t.authorizations && t.authorizations[a].isDefault :: LinkPair(t, t.authorizations[a].link),
      set a | a in t.authorizations && t.authorizations[a].isDefault :: TripleOf(t, a))
  }

  /** The source contact read as the target contact. */
  datatype Renaming = Renaming(source: Id, target: Id) {
    function Of(contact: Id): Id {
      if contact == source then target else contact
    }

    function OfPair(p: Pair): Pair {
      Pair(Of(p.left), Of(p.right))
    }

    function OfTriple(x: Triple): Triple {
      Triple(Of(x.shipper), Of(x.organization), Of(x.person))
    }
  }

  /** The view with the source renamed to the target in every position that holds a contact. */
  ghost function Renamed(r: Renaming, v: View): View {
    View(
      set s | s in v.shippers :: r.Of(s),
      set o | o in v.organizations :: Pair(r.Of(o.left), o.right),
      set c | c in v.recipients :: r.OfPair(c),
      set l | l in v.links :: r.OfPair(l),
      set x | x in v.authorized :: r.OfTriple(x),
      set x | x in v.active :: r.OfTriple(x),
      set l | l in v.withDefault :: r.OfPair(l),
      set x | x in v.defaults :: r.OfTriple(x))
  }

  /** No row names the contact. */
  ghost predicate Absent(t: Tables, contact: Id) {
    && (forall s :: s in t.shippers ==> t.shippers[s].organization != contact)
    && (forall o :: o in t.organizations ==> t.organizations[o].organization != contact)
    && (forall c :: c in t.recipients ==> t.recipients[c].contact != contact)
  }

  // ---------------------------------------------------------------- reading the tables through a renaming

  /** What one authorization says: the pair of its link, the pair of its recipient contact, its flags. */
  datatype Grant = Grant(link: Pair, recipient: Pair, isDefault: bool, active: bool) {
    function Said(): Triple {
      Triple(link.left, link.right, recipient.right)
    }
  }

  /** What each row says about contacts. */
  datatype Labels = Labels(
    shippers: map<Id, Id>,
    organizations: map<Id, Pair>,
    recipients: map<Id, Pair>,
    links: map<Id, Pair>,
    grants: map<Id, Grant>)

  ghost predicate ShippersLabelled(shippers: map<Id, Shipper>, n: map<Id, Id>, r: Renaming) {
    && n.Keys == shippers.Keys
    && (forall s :: s in shippers ==> n[s] == r.Of(shippers[s].organization))
  }

  ghost predicate OrganizationsLabelled(organizations: map<Id, RecipientOrganization>, n: map<Id, Pair>, r: Renaming) {
    && n.Keys == organizations.Keys
    && (forall o :: o in organizations ==>
          n[o] == Pair(r.Of(organizations[o].organization), organizations[o].destination))
  }

  ghost predicate RecipientsLabelled(
    recipients: map<Id, RecipientContact>, n: map<Id, Pair>, organizations: map<Id, Pair>, r: Renaming)
  {
    && n.Keys == recipients.Keys
    && (forall c :: c in recipients ==>
          && recipients[c].recipientOrganization in organizations
          && n[c] == Pair(organizations[recipients[c].recipientOrganization].left, r.Of(recipients[c].contact)))
  }

  ghost predicate LinksLabelled(
    links: map<Id, Link>, n: map<Id, Pair>, shippers: map<Id, Id>, organizations: map<Id, Pair>)
  {
    && n.Keys == links.Keys
    && (forall l :: l in links ==>
          && links[l].shipper in shippers && links[l].recipientOrganization in organizations
          && n[l] == Pair(shippers[links[l].shipper], organizations[links[l].recipientOrganization].left))
  }

  ghost predicate GrantsLabelled(
    auths: map<Id, Authorization>, n: map<Id, Grant>, links: map<Id, Pair>, recipients: map<Id, Pair>)
  {
    && n.Keys == auths.Keys
    && (forall a :: a in auths ==>
          && auths[a].link in links && auths[a].recipientContact in recipients
          && n[a]
            == Grant(links[auths[a].link], recipients[auths[a].recipientContact], auths[a].isDefault, auths[a].active))
  }

  /** The labels say what the rows say, read through the renaming. */
  ghost predicate Labelled(t: Tables, n: Labels, r: Renaming) {
    && ShippersLabelled(t.shippers, n.shippers, r)
    && OrganizationsLabelled(t.organizations, n.organizations, r)
    && RecipientsLabelled(t.recipients, n.recipients, n.organizations, r)
    && LinksLabelled(t.links, n.links, n.shippers, n.organizations)
    && GrantsLabelled(t.authorizations, n.grants, n.links, n.recipients)
  }

  lemma RecipientLabels(
    recipients: map<Id, RecipientContact>, organizations: map<Id, Pair>, r: Renaming) returns (n: map<Id, Pair>)
    requires forall c :: c in recipients ==> recipients[c].recipientOrganization in organizations
    ensures RecipientsLabelled(recipients, n, organizations, r)
  {
    n := map c | c in recipients ::
      Pair(organizations[recipients[c].recipientOrganization].left, r.Of(recipients[c].contact));
  }

  lemma LinkLabels(links: map<Id, Link>, shippers: map<Id, Id>, organizations: map<Id, Pair>) returns (n: map<Id, Pair>)
    requires forall l :: l in links ==> links[l].shipper in shippers && links[l].recipientOrganization in organizations
    ensures LinksLabelled(links, n, shippers, organizations)
  {
    n := map l | l in links :: Pair(shippers[links[l].shipper], organizations[links[l].recipientOrganization].left);
  }

  lemma GrantLabels(
    auths: map<Id, Authorization>, links: map<Id, Pair>, recipients: map<Id, Pair>) returns (n: map<Id, Grant>)
    requires forall a :: a in auths ==> auths[a].link in links && auths[a].recipientContact in recipients
    ensures GrantsLabelled(auths, n, links, recipients)
  {
    n := map a | a in auths ::
      Grant(links[auths[a].link], recipients[auths[a].recipientContact], auths[a].isDefault, auths[a].active);
  }

  lemma LabelsExist(t: Tables, r: Renaming) returns (n: Labels)
    requires Resolved(t)
    ensures Labelled(t, n, r)
  {
    var shippers := map s | s in t.shippers :: r.Of(t.shippers[s].organization);
    var organizations := map o | o in t.organizations ::
        Pair(r.Of(t.organizations[o].organization), t.organizations[o].destination);
    var recipients := RecipientLabels(t.recipients, organizations, r);
    var links := LinkLabels(t.links, shippers, organizations);
    var grants := GrantLabels(t.authorizations, links, recipients);
    n := Labels(shippers, organizations, recipients, links, grants);
  }

  ghost function ViewOf(n: Labels): View {
    View(n.shippers.Values, n.organizations.Values, n.recipients.Values, n.links.Values,
         Authorized(n.grants), Active(n.grants), WithDefault(n.grants), Defaults(n.grants))
  }

  ghost function Authorized(grants: map<Id, Grant>): set<Triple> {
    set a | a in grants :: grants[a].Said()
  }

  ghost function Active(grants: map<Id, Grant>): set<Triple> {
    set a | a in grants && grants[a].active :: grants[a].Said()
  }

  ghost function WithDefault(grants: map<Id, Grant>): set<Pair> {
    set a | a in grants && grants[a].isDefault :: grants[a].link
  }

  ghost function Defaults(grants: map<Id, Grant>): set<Triple> {
    set a | a in grants && grants[a].isDefault :: grants[a].Said()
  }

  lemma LabelledRows(t: Tables, n: Labels, r: Renaming)
    requires Resolved(t) && ShippersLabelled(t.shippers, n.shippers, r)
    requires OrganizationsLabelled(t.organizations, n.organizations, r)
    ensures n.shippers.Values == Renamed(r, Stated(t)).shippers
    ensures n.organizations.Values == Renamed(r, Stated(t)).organizations
  {
    forall s | s in t.shippers
      ensures n.shippers[s] in n.shippers.Values && t.shippers[s].organization in Stated(t).shippers
    {
    }
    forall o | o in t.organizations
      ensures n.organizations[o] in n.organizations.Values
      ensures Pair(t.organizations[o].organization, t.organizations[o].destination) in Stated(t).organizations
    {
    }
  }

  lemma LabelledRecipients(t: Tables, n: Labels, r: Renaming)
    requires Resolved(t) && Labelled(t, n, r)
    ensures forall c :: c in t.recipients ==> n.recipients[c] == r.OfPair(RecipientPair(t, c))
  {
  }

  lemma LabelledLinks(t: Tables, n: Labels, r: Renaming)
    requires Resolved(t) && Labelled(t, n, r)
    ensures forall l :: l in t.links ==> n.links[l] == r.OfPair(LinkPair(t, l))
  {
  }

  lemma LabelledTriples(t: Tables, n: Labels, r: Renaming)
    requires Resolved(t) && Labelled(t, n, r)
    ensures n.grants.Keys == t.authorizations.Keys
    ensures forall a :: a in n.grants ==> n.grants[a].Said() == r.OfTriple(TripleOf(t, a))
    ensures forall a :: a in n.grants ==> n.grants[a].link == r.OfPair(LinkPair(t, t.authorizations[a].link))
    ensures forall a :: a in n.grants ==>
      n.grants[a].active == t.authorizations[a].active && n.grants[a].isDefault == t.authorizations[a].isDefault
  {
  }

  lemma LabelledAuthorized(t: Tables, grants: map<Id, Grant>, r: Renaming)
    requires Resolved(t) && grants.Keys == t.authorizations.Keys
    requires forall a :: a in grants ==> grants[a].Said() == r.OfTriple(TripleOf(t, a))
    ensures Authorized(grants) == Renamed(r, Stated(t)).authorized
  {
    assert forall a :: a in t.authorizations ==> TripleOf(t, a) in Stated(t).authorized;
  }

  lemma LabelledActive(t: Tables, grants: map<Id, Grant>, r: Renaming)
    requires Resolved(t) && grants.Keys == t.authorizations.Keys
    requires forall a :: a in grants ==> grants[a].Said() == r.OfTriple(TripleOf(t, a))
    requires forall a :: a in grants ==> grants[a].active == t.authorizations[a].active
    ensures Active(grants) == Renamed(r, Stated(t)).active
  {
    assert forall a :: a in t.authorizations && t.authorizations[a].active ==> TripleOf(t, a) in Stated(t).active;
  }

  lemma LabelledDefaults(t: Tables, grants: map<Id, Grant>, r: Renaming)
    requires Resolved(t) && grants.Keys == t.authorizations.Keys
    requires forall a :: a in grants ==> grants[a].Said() == r.OfTriple(TripleOf(t, a))
    requires forall a :: a in grants ==> grants[a].isDefault == t.authorizations[a].isDefault
    ensures Defaults(grants) == Renamed(r, Stated(t)).defaults
  {
    assert forall a :: a in t.authorizations && t.authorizations[a].isDefault ==> TripleOf(t, a) in Stated(t).defaults;
  }

  lemma LabelledWithDefault(t: Tables, grants: map<Id, Grant>, r: Renaming)
    requires Resolved(t) && grants.Keys == t.authorizations.Keys
    requires forall a :: a in grants ==> grants[a].link == r.OfPair(LinkPair(t, t.authorizations[a].link))
    requires forall a :: a in grants ==> grants[a].isDefault == t.authorizations[a].isDefault
    ensures WithDefault(grants) == Renamed(r, Stated(t)).withDefault
  {
    assert forall a :: a in t.authorizations && t.authorizations[a].isDefault ==>
      LinkPair(t, t.authorizations[a].link) in Stated(t).withDefault;
  }

  lemma LabelledKeys(t: Tables, n: Labels, r: Renaming)
    requires Resolved(t) && Labelled(t, n, r)
    ensures n.recipients.Values == Renamed(r, Stated(t)).recipients
    ensures n.links.Values == Renamed(r, Stated(t)).links
  {
    LabelledRecipients(t, n, r);
    LabelledLinks(t, n, r);
    forall c | c in t.recipients
      ensures RecipientPair(t, c) in Stated(t).recipients && n.recipients[c] in n.recipients.Values
    {
    }
    forall l | l in t.links
      ensures LinkPair(t, l) in Stated(t).links && n.links[l] in n.links.Values
    {
    }
  }

  /** Reading the tables through the renaming is renaming what they state. */
  lemma LabelledIsRenamed(t: Tables, n: Labels, r: Renaming)
    requires Resolved(t) && Labelled(t, n, r)
    ensures ViewOf(n) == Renamed(r, Stated(t))
  {
    LabelledRows(t, n, r);
    LabelledKeys(t, n, r);
    LabelledTriples(t, n, r);
    LabelledAuthorized(t, n.grants, r);
    LabelledActive(t, n.grants, r);
    LabelledWithDefault(t, n.grants, r);
    LabelledDefaults(t, n.grants, r);
  }

  /** Renaming renames nothing once no row names the source. */
  lemma AbsentUnrenamed(t: Tables, r: Renaming)
    requires Resolved(t) && Absent(t, r.source)
    ensures Renamed(r, Stated(t)) == Stated(t)
  {
    AbsentRows(t, r);
    FixedPairs(r, Stated(t).recipients);
    FixedPairs(r, Stated(t).links);
    FixedPairs(r, Stated(t).withDefault);
    FixedTriples(r, Stated(t).authorized);
    FixedTriples(r, Stated(t).active);
    FixedTriples(r, Stated(t).defaults);
    var v := Stated(t);
    assert (set s | s in v.shippers :: r.Of(s)) == v.shippers;
    assert (set o | o in v.organizations :: Pair(r.Of(o.left), o.right)) == v.organizations;
  }

  lemma AbsentRows(t: Tables, r: Renaming)
    requires Resolved(t) && Absent(t, r.source)
    ensures forall s :: s in Stated(t).shippers ==> s != r.source
    ensures forall o :: o in Stated(t).organizations ==> o.left != r.source
    ensures forall p :: p in Stated(t).recipients ==> r.OfPair(p) == p
    ensures forall p :: p in Stated(t).links ==> r.OfPair(p) == p
    ensures forall p :: p in Stated(t).withDefault ==> r.OfPair(p) == p
    ensures forall x :: x in Stated(t).authorized ==> r.OfTriple(x) == x
    ensures forall x :: x in Stated(t).active ==> r.OfTriple(x) == x
    ensures forall x :: x in Stated(t).defaults ==> r.OfTriple(x) == x
  {
  }

  lemma FixedPairs(r: Renaming, pairs: set<Pair>)
    requires forall p :: p in pairs ==> r.OfPair(p) == p
    ensures (set p | p in pairs :: r.OfPair(p)) == pairs
  {
  }

  lemma FixedTriples(r: Renaming, triples: set<Triple>)
    requires forall x :: x in triples ==> r.OfTriple(x) == x
    ensures (set x | x in triples :: r.OfTriple(x)) == triples
  {
  }
}
