/** One lemma for each kind of write a merge makes: the renamed relation and the coherence of the tables survive it. */
module RegistrySteps {
  import opened Ids
  import opened RegistryTables

  /** Each authorized person is a recipient contact of the link's organization, up to the renaming. */
  ghost predicate Matching(grants: map<Id, Grant>) {
    forall a :: a in grants ==> grants[a].recipient.left == grants[a].link.right
  }

  /** Two correspondents of one destination that are not one organization, even up to the renaming. */
  ghost predicate Rivals(organizations: map<Id, RecipientOrganization>, r: Renaming, o: Id, o': Id) {
    BothCorrespond(organizations, o, o') && r.Of(organizations[o].organization) != r.Of(organizations[o'].organization)
  }

  ghost predicate OneCorrespondent(organizations: map<Id, RecipientOrganization>, r: Renaming) {
    forall o, o' :: !Rivals(organizations, r, o, o')
  }

  /** What every write of a merge keeps: the registry invariant, with source and target taken for one contact. */
  ghost predicate Coherent(t: Tables, n: Labels, r: Renaming) {
    && Resolved(t) && SameKeys(t, n)
    && (forall k :: Unfold(k) ==>
          Labelled(t, n, r) && Unique(t) && Matching(n.grants) && OneCorrespondent(t.organizations, r))
  }

  ghost predicate SameKeys(t: Tables, n: Labels) {
    && n.shippers.Keys == t.shippers.Keys && n.organizations.Keys == t.organizations.Keys
    && n.recipients.Keys == t.recipients.Keys && n.links.Keys == t.links.Keys && n.grants.Keys == t.authorizations.Keys
  }

  /** The same relation; a default may have been cleared where another one remains. */
  ghost predicate Keeps(v: View, v': View) {
    forall k :: Unfold(k, TheView) ==>
      && v'.shippers == v.shippers && v'.organizations == v.organizations && v'.recipients == v.recipients
      && v'.links == v.links
      && v'.authorized == v.authorized && v'.active == v.active && v'.withDefault == v.withDefault
      && v'.defaults <= v.defaults
  }

  lemma KeepsItself(v: View)
    ensures Keeps(v, v)
  {
  }

  lemma KeepsTransitive(v: View, v': View, v'': View)
    requires Keeps(v, v') && Keeps(v', v'')
    ensures Keeps(v, v'')
  {
    assert Unfold(0, TheView);
  }

  lemma SoundIsCoherent(t: Tables, r: Renaming) returns (n: Labels)
    requires Sound(t)
    ensures Coherent(t, n, r)
  {
    n := LabelsExist(t, r);
    SoundMatches(t, n, r);
  }

  lemma SoundMatches(t: Tables, n: Labels, r: Renaming)
    requires Resolved(t) && OwnContacts(t) && Labelled(t, n, r)
    ensures Matching(n.grants)
  {
  }

  /** Once the source is gone the renaming renames nothing, so coherence is soundness. */
  lemma CoherentIsSound(t: Tables, n: Labels, r: Renaming)
    requires Coherent(t, n, r) && Absent(t, r.source)
    ensures Sound(t)
  {
    assert Unfold(0);
    MatchesOwn(t, n, r);
    CorrespondentsUnique(t.organizations, r);
  }

  lemma MatchesOwn(t: Tables, n: Labels, r: Renaming)
    requires Resolved(t) && Labelled(t, n, r) && Matching(n.grants) && UniqueOrganizations(t.organizations)
    requires Absent(t, r.source)
    ensures OwnContacts(t)
  {
    forall a | a in t.authorizations
      ensures t.recipients[t.authorizations[a].recipientContact].recipientOrganization
          == t.links[t.authorizations[a].link].recipientOrganization
    {
      assert n.grants[a].recipient.left == n.grants[a].link.right;
      assert SameOrganization(t.organizations, t.recipients[t.authorizations[a].recipientContact].recipientOrganization,
          t.links[t.authorizations[a].link].recipientOrganization);
    }
  }

  lemma CorrespondentsUnique(organizations: map<Id, RecipientOrganization>, r: Renaming)
    requires OneCorrespondent(organizations, r) && UniqueOrganizations(organizations)
    requires forall o :: o in organizations ==> organizations[o].organization != r.source
    ensures UniqueCorrespondents(organizations)
  {
    assert forall o, o' :: BothCorrespond(organizations, o, o') ==>
      Rivals(organizations, r, o, o') || SameOrganization(organizations, o, o');
  }

  lemma SameRowsView(n: Labels, n': Labels)
    requires n'.shippers.Values == n.shippers.Values && n'.organizations.Values == n.organizations.Values
    requires n'.recipients.Values == n.recipients.Values && n'.links.Values == n.links.Values && n'.grants == n.grants
    ensures Keeps(ViewOf(n), ViewOf(n'))
  {
  }

  lemma CoherentMadeOf(t: Tables, n: Labels, r: Renaming)
    requires ShippersLabelled(t.shippers, n.shippers, r) && OrganizationsLabelled(t.organizations, n.organizations, r)
    requires RecipientsLabelled(t.recipients, n.recipients, n.organizations, r)
    requires LinksLabelled(t.links, n.links, n.shippers, n.organizations)
    requires GrantsLabelled(t.authorizations, n.grants, n.links, n.recipients)
    requires UniqueShippers(t.shippers) && UniqueOrganizations(t.organizations) && UniqueRecipients(t.recipients)
    requires UniqueLinks(t.links) && UniqueAuthorizations(t.authorizations) && OneDefaultPerLink(t.authorizations)
    requires Matching(n.grants) && OneCorrespondent(t.organizations, r)
    ensures Coherent(t, n, r)
  {
  }

  lemma SameGrantsView(n: Labels, grants: map<Id, Grant>)
    requires Authorized(grants) == Authorized(n.grants) && Active(grants) == Active(n.grants)
    requires WithDefault(grants) == WithDefault(n.grants) && Defaults(grants) <= Defaults(n.grants)
    ensures Keeps(ViewOf(n), ViewOf(n.(grants := grants)))
  {
  }

  // ---------------------------------------------------------------- rows that only change foreign keys or flags

  /** A shipper row keeps its organization, or goes to the target when the target has no shipper yet. */
  lemma ShipperSaved(t: Tables, n: Labels, s: Id, row: Shipper, r: Renaming)
    requires Coherent(t, n, r) && s in t.shippers
    requires r.Of(row.organization) == r.Of(t.shippers[s].organization)
    requires forall s' :: s' in t.shippers && s' != s ==> t.shippers[s'].organization != row.organization
    ensures Coherent(t.(shippers := t.shippers[s := row]), n, r)
  {
    assert Unfold(0);
    var after := t.shippers[s := row];
    assert forall x, x' :: SameShipper(after, x, x') ==> x == x' || SameShipper(t.shippers, x, x');
    CoherentMadeOf(t.(shippers := after), n, r);
  }

  /** The organization, or the one it is merged with, is the correspondent of its destination. */
  ghost predicate SharesCorrespondent(organizations: map<Id, RecipientOrganization>, o: Id, r: Renaming)
    requires o in organizations
  {
    exists o' :: o' in organizations && organizations[o'].isCorrespondent
      && organizations[o'].destination == organizations[o].destination
      && r.Of(organizations[o'].organization) == r.Of(organizations[o].organization)
  }

  /** A recipient organization keeps its organization, or goes to the target when the target has none yet;
      it may become the correspondent of a destination whose correspondent it is merged with. */
  lemma OrganizationSaved(t: Tables, n: Labels, o: Id, row: RecipientOrganization, r: Renaming)
    requires Coherent(t, n, r) && o in t.organizations
    requires r.Of(row.organization) == r.Of(t.organizations[o].organization)
    requires row.destination == t.organizations[o].destination
    requires forall o' :: o' in t.organizations && o' != o ==> t.organizations[o'].organization != row.organization
    requires row.isCorrespondent ==> SharesCorrespondent(t.organizations, o, r)
    ensures Coherent(t.(organizations := t.organizations[o := row]), n, r)
  {
    assert Unfold(0);
    var after := t.organizations[o := row];
    assert forall x, x' :: SameOrganization(after, x, x') ==> x == x' || SameOrganization(t.organizations, x, x');
    NoNewRivals(t.organizations, o, row, r);
    CoherentMadeOf(t.(organizations := after), n, r);
  }

  lemma NoNewRivals(organizations: map<Id, RecipientOrganization>, o: Id, row: RecipientOrganization, r: Renaming)
    requires OneCorrespondent(organizations, r) && o in organizations
    requires r.Of(row.organization) == r.Of(organizations[o].organization)
    requires row.destination == organizations[o].destination
    requires row.isCorrespondent ==> SharesCorrespondent(organizations, o, r)
    ensures OneCorrespondent(organizations[o := row], r)
  {
    var after := organizations[o := row];
    if row.isCorrespondent {
      var twin :| twin in organizations && organizations[twin].isCorrespondent
        && organizations[twin].destination == organizations[o].destination
        && r.Of(organizations[twin].organization) == r.Of(organizations[o].organization);
      forall x: Id, x': Id ensures !Rivals(after, r, x, x') {
        assert !Rivals(organizations, r, if x == o then twin else x, if x' == o then twin else x');
      }
    } else {
      forall x: Id, x': Id ensures !Rivals(after, r, x, x') {
        assert !Rivals(organizations, r, x, x');
      }
    }
  }

  lemma RecipientSaved(t: Tables, n: Labels, c: Id, row: RecipientContact, r: Renaming)
    requires Coherent(t, n, r) && c in t.recipients && row.recipientOrganization in t.organizations
    requires Pair(n.organizations[row.recipientOrganization].left, r.Of(row.contact)) == n.recipients[c]
    requires forall c' :: c' in t.recipients && c' != c ==>
      !(t.recipients[c'].recipientOrganization == row.recipientOrganization && t.recipients[c'].contact == row.contact)
    ensures Coherent(t.(recipients := t.recipients[c := row]), n, r)
  {
    assert Unfold(0);
    RecipientLabelSame(t.recipients, n.recipients, c, row, n.organizations, r);
    UniqueRecipientsKept(t.recipients, c, row);
    CoherentMadeOf(t.(recipients := t.recipients[c := row]), n, r);
  }

  lemma RecipientLabelSame(
    recipients: map<Id, RecipientContact>, n: map<Id, Pair>, c: Id, row: RecipientContact, organizations: map<Id, Pair>,
    r: Renaming)
    requires RecipientsLabelled(recipients, n, organizations, r) && c in recipients
    requires row.recipientOrganization in organizations
    requires Pair(organizations[row.recipientOrganization].left, r.Of(row.contact)) == n[c]
    ensures RecipientsLabelled(recipients[c := row], n, organizations, r)
  {
  }

  lemma UniqueRecipientsKept(recipients: map<Id, RecipientContact>, c: Id, row: RecipientContact)
    requires UniqueRecipients(recipients)
    requires forall c' :: c' in recipients && c' != c ==>
      !(recipients[c'].recipientOrganization == row.recipientOrganization && recipients[c'].contact == row.contact)
    ensures UniqueRecipients(recipients[c := row])
  {
    var after := recipients[c := row];
    forall x, x' | SameRecipient(after, x, x')
      ensures x == x'
    {
      assert x == x' || SameRecipient(recipients, x, x');
    }
  }

  lemma LinkSaved(t: Tables, n: Labels, l: Id, row: Link, r: Renaming)
    requires Coherent(t, n, r) && l in t.links && row.shipper in t.shippers
    requires row.recipientOrganization in t.organizations
    requires Pair(n.shippers[row.shipper], n.organizations[row.recipientOrganization].left) == n.links[l]
    requires forall l' :: l' in t.links && l' != l ==>
      !(t.links[l'].shipper == row.shipper && t.links[l'].recipientOrganization == row.recipientOrganization)
    ensures Coherent(t.(links := t.links[l := row]), n, r)
  {
    assert Unfold(0);
    LinkLabelSame(t.links, n.links, l, row, n.shippers, n.organizations);
    UniqueLinksKept(t.links, l, row);
    CoherentMadeOf(t.(links := t.links[l := row]), n, r);
  }

  lemma LinkLabelSame(
    links: map<Id, Link>, n: map<Id, Pair>, l: Id, row: Link, shippers: map<Id, Id>, organizations: map<Id, Pair>)
    requires LinksLabelled(links, n, shippers, organizations) && l in links
    requires row.shipper in shippers && row.recipientOrganization in organizations
    requires n[l] == Pair(shippers[row.shipper], organizations[row.recipientOrganization].left)
    ensures LinksLabelled(links[l := row], n, shippers, organizations)
  {
  }

  lemma UniqueLinksKept(links: map<Id, Link>, l: Id, row: Link)
    requires UniqueLinks(links)
    requires forall l' :: l' in links && l' != l ==>
      !(links[l'].shipper == row.shipper && links[l'].recipientOrganization == row.recipientOrganization)
    ensures UniqueLinks(links[l := row])
  {
    var after := links[l := row];
    forall x, x' | SameLink(after, x, x')
      ensures x == x'
    {
      assert x == x' || SameLink(links, x, x');
    }
  }

  // ---------------------------------------------------------------- authorizations

  /** No authorization of the link but one stays the default. */
  function ClearOthers(auths: map<Id, Authorization>, link: Id, keep: Id): map<Id, Authorization> {
    map a | a in auths ::
      if auths[a].link == link && auths[a].isDefault && a != keep then auths[a].(isDefault := false) else auths[a]
  }

  /** An authorization takes a free (link, recipient contact) slot that means the same triple;
      if it is a default, the other default of that link is cleared. */
  function Moved(auths: map<Id, Authorization>, a: Id, link: Id, recipient: Id): map<Id, Authorization>
    requires a in auths
  {
    var moved := auths[a := auths[a].(link := link, recipientContact := recipient)];
    if auths[a].isDefault then ClearOthers(moved, link, a) else moved
  }

  /** The slot is taken by `e`: its flags become the disjunction, the other default is cleared, `a` is deleted. */
  function Absorbed(auths: map<Id, Authorization>, a: Id, e: Id): map<Id, Authorization>
    requires a in auths && e in auths
  {
    var cleared := if auths[a].isDefault && !auths[e].isDefault then ClearOthers(auths, auths[e].link, e) else auths;
    var row := auths[e].(
      active := auths[e].active || auths[a].active, isDefault := auths[e].isDefault || auths[a].isDefault);
    cleared[e := row] - {a}
  }

  ghost predicate SlotFree(auths: map<Id, Authorization>, link: Id, recipient: Id) {
    forall a :: a in auths ==> !(auths[a].link == link && auths[a].recipientContact == recipient)
  }

  lemma MovedKeepsUnique(auths: map<Id, Authorization>, a: Id, link: Id, recipient: Id)
    requires UniqueAuthorizations(auths) && OneDefaultPerLink(auths) && a in auths && SlotFree(auths, link, recipient)
    ensures UniqueAuthorizations(Moved(auths, a, link, recipient))
    ensures OneDefaultPerLink(Moved(auths, a, link, recipient))
  {
    var after := Moved(auths, a, link, recipient);
    assert forall x, x' :: SameSlot(after, x, x') ==> x == x' || SameSlot(auths, x, x');
    assert forall x, x' :: BothDefault(after, x, x') ==> x == x' || BothDefault(auths, x, x');
  }

  lemma AbsorbedKeepsUnique(auths: map<Id, Authorization>, a: Id, e: Id)
    requires UniqueAuthorizations(auths) && OneDefaultPerLink(auths) && a in auths && e in auths && a != e
    ensures UniqueAuthorizations(Absorbed(auths, a, e)) && OneDefaultPerLink(Absorbed(auths, a, e))
  {
    var after := Absorbed(auths, a, e);
    assert forall x, x' :: SameSlot(after, x, x') ==> SameSlot(auths, x, x');
    assert forall x, x' :: BothDefault(after, x, x') ==> x == x' || BothDefault(auths, x, x');
  }

  /** Defaults on the link of `keep` may be cleared as long as `keep` is a default there. */
  ghost predicate ClearedBeside(grants: map<Id, Grant>, cleared: map<Id, Grant>, keep: Id) {
    && keep in grants && keep in cleared && cleared[keep] == grants[keep] && cleared.Keys == grants.Keys
    && (forall b :: b in grants ==>
          || cleared[b] == grants[b]
          || (cleared[b] == grants[b].(isDefault := false) && grants[keep].isDefault
            && grants[b].link == grants[keep].link))
  }

  lemma ClearedView(grants: map<Id, Grant>, cleared: map<Id, Grant>, keep: Id)
    requires ClearedBeside(grants, cleared, keep)
    ensures Authorized(cleared) == Authorized(grants) && Active(cleared) == Active(grants)
    ensures WithDefault(cleared) == WithDefault(grants) && Defaults(cleared) <= Defaults(grants)
    ensures Matching(grants) ==> Matching(cleared)
  {
    assert forall b :: b in grants ==> cleared[b].Said() == grants[b].Said();
  }

  /** A moved authorization still says the same, and its link still has a default. */
  lemma MovedKeeps(t: Tables, n: Labels, a: Id, link: Id, recipient: Id, r: Renaming) returns (n': Labels)
    requires Coherent(t, n, r) && a in t.authorizations && link in t.links && recipient in t.recipients
    requires n.links[link] == n.links[t.authorizations[a].link]
    requires n.recipients[recipient] == n.recipients[t.authorizations[a].recipientContact]
    requires SlotFree(t.authorizations, link, recipient)
    ensures Coherent(t.(authorizations := Moved(t.authorizations, a, link, recipient)), n', r)
    ensures n' == n.(grants := n'.grants) && Keeps(ViewOf(n), ViewOf(n'))
  {
    assert Unfold(0);
    MovedKeepsUnique(t.authorizations, a, link, recipient);
    var grants := MovedGrants(t.authorizations, n.grants, a, link, recipient, n.links, n.recipients);
    ClearedView(n.grants, grants, a);
    n' := n.(grants := grants);
    SameGrantsView(n, grants);
    CoherentMadeOf(t.(authorizations := Moved(t.authorizations, a, link, recipient)), n', r);
  }

  lemma MovedGrants(
    auths: map<Id, Authorization>, grants: map<Id, Grant>, a: Id, link: Id, recipient: Id, links: map<Id, Pair>,
    recipients: map<Id, Pair>)
    returns (moved: map<Id, Grant>)
    requires GrantsLabelled(auths, grants, links, recipients) && a in auths && link in links && recipient in recipients
    requires links[link] == links[auths[a].link] && recipients[recipient] == recipients[auths[a].recipientContact]
    ensures GrantsLabelled(Moved(auths, a, link, recipient), moved, links, recipients)
    ensures ClearedBeside(grants, moved, a)
  {
    var after := Moved(auths, a, link, recipient);
    moved := map b | b in grants :: grants[b].(isDefault := after[b].isDefault);
  }

  /** The kept grant takes over the flags of the deleted one. */
  ghost predicate AbsorbedBeside(grants: map<Id, Grant>, after: map<Id, Grant>, a: Id, e: Id) {
    && a in grants && e in grants && a != e && after.Keys == grants.Keys - {a} && e in after
    && grants[a].link == grants[e].link && grants[a].recipient == grants[e].recipient
    && after[e]
      == grants[e].(active := grants[e].active || grants[a].active,
          isDefault := grants[e].isDefault || grants[a].isDefault)
    && (forall b :: b in after && b != e ==>
          || after[b] == grants[b]
          || (after[b] == grants[b].(isDefault := false) && after[e].isDefault && grants[b].link == grants[e].link))
  }

  lemma AbsorbedView(grants: map<Id, Grant>, after: map<Id, Grant>, a: Id, e: Id)
    requires AbsorbedBeside(grants, after, a, e)
    ensures Authorized(after) == Authorized(grants) && Active(after) == Active(grants)
    ensures WithDefault(after) == WithDefault(grants) && Defaults(after) <= Defaults(grants)
    ensures Matching(grants) ==> Matching(after)
  {
    assert forall b :: b in after ==> after[b].Said() == grants[b].Said();
    assert after[e].Said() == grants[a].Said();
    forall x | x in Authorized(grants) ensures x in Authorized(after) {
      var b :| b in grants && grants[b].Said() == x;
      assert (if b == a then e else b) in after;
    }
    forall x | x in Active(grants) ensures x in Active(after) {
      var b :| b in grants && grants[b].active && grants[b].Said() == x;
      assert (if b == a then e else b) in after;
    }
    forall l | l in WithDefault(grants) ensures l in WithDefault(after) {
      var b :| b in grants && grants[b].isDefault && grants[b].link == l;
      if b == a || !after[b].isDefault { assert e in after && after[e].isDefault && after[e].link == l; }
    }
  }

  lemma AbsorbedRows(auths: map<Id, Authorization>, a: Id, e: Id)
    requires a in auths && e in auths && a != e
    ensures var rows := Absorbed(auths, a, e);
      && rows.Keys == auths.Keys - {a}
      && rows[e]
        == auths[e].(active := auths[e].active || auths[a].active,
            isDefault := auths[e].isDefault || auths[a].isDefault)
      && (forall b :: b in rows && b != e ==>
            || rows[b] == auths[b]
            || (rows[b] == auths[b].(isDefault := false) && rows[e].isDefault && auths[b].link == auths[e].link))
  {
  }

  /** Folding an authorization into the one that holds its slot loses no triple, no activity and no default. */
  lemma AbsorbedKeeps(t: Tables, n: Labels, a: Id, e: Id, r: Renaming) returns (n': Labels)
    requires Coherent(t, n, r) && a in t.authorizations && e in t.authorizations && a != e
    requires n.links[t.authorizations[a].link] == n.links[t.authorizations[e].link]
    requires n.recipients[t.authorizations[a].recipientContact] == n.recipients[t.authorizations[e].recipientContact]
    ensures Coherent(t.(authorizations := Absorbed(t.authorizations, a, e)), n', r)
    ensures n' == n.(grants := n'.grants) && Keeps(ViewOf(n), ViewOf(n'))
  {
    assert Unfold(0);
    AbsorbedKeepsUnique(t.authorizations, a, e);
    var grants := AbsorbedGrants(t.authorizations, n.grants, a, e, n.links, n.recipients);
    AbsorbedView(n.grants, grants, a, e);
    n' := n.(grants := grants);
    SameGrantsView(n, grants);
    CoherentMadeOf(t.(authorizations := Absorbed(t.authorizations, a, e)), n', r);
  }

  lemma AbsorbedGrants(
    auths: map<Id, Authorization>, grants: map<Id, Grant>, a: Id, e: Id, links: map<Id, Pair>,
    recipients: map<Id, Pair>)
    returns (after: map<Id, Grant>)
    requires GrantsLabelled(auths, grants, links, recipients) && a in auths && e in auths && a != e
    requires links[auths[a].link] == links[auths[e].link]
    requires recipients[auths[a].recipientContact] == recipients[auths[e].recipientContact]
    ensures GrantsLabelled(Absorbed(auths, a, e), after, links, recipients)
    ensures AbsorbedBeside(grants, after, a, e)
  {
    var rows := Absorbed(auths, a, e);
    AbsorbedRows(auths, a, e);
    after := map b | b in rows :: grants[b].(isDefault := rows[b].isDefault, active := rows[b].active);
  }

  // ---------------------------------------------------------------- deletions of rows nothing refers to

  /** The pairs are the same set without the row: another row states the same pair. */
  lemma RedundantValue<T>(rows: map<Id, T>, gone: Id, twin: Id)
    requires gone in rows && twin in rows && gone != twin && rows[gone] == rows[twin]
    ensures (rows - {gone}).Values == rows.Values
  {
    assert twin in rows - {gone} && (rows - {gone})[twin] == rows[gone];
    forall v | v in rows.Values ensures v in (rows - {gone}).Values {
      var k :| k in rows && rows[k] == v;
      if k != gone { assert k in rows - {gone} && (rows - {gone})[k] == v; }
    }
  }

  lemma RecipientDeleted(t: Tables, n: Labels, c: Id, twin: Id, r: Renaming) returns (n': Labels)
    requires Coherent(t, n, r) && c in t.recipients && twin in t.recipients && c != twin
    requires n.recipients[c] == n.recipients[twin]
    requires forall a :: a in t.authorizations ==> t.authorizations[a].recipientContact != c
    ensures Coherent(t.(recipients := t.recipients - {c}), n', r)
    ensures n' == n.(recipients := n.recipients - {c}) && Keeps(ViewOf(n), ViewOf(n'))
  {
    assert Unfold(0);
    RedundantValue(n.recipients, c, twin);
    n' := n.(recipients := n.recipients - {c});
    RecipientGone(t.recipients, n.recipients, c, n.organizations, r);
    GrantsWithoutRecipient(t.authorizations, n.grants, n.links, n.recipients, c);
    CoherentMadeOf(t.(recipients := t.recipients - {c}), n', r);
    SameRowsView(n, n');
  }

  lemma RecipientGone(
    recipients: map<Id, RecipientContact>, n: map<Id, Pair>, c: Id, organizations: map<Id, Pair>, r: Renaming)
    requires RecipientsLabelled(recipients, n, organizations, r) && UniqueRecipients(recipients)
    ensures RecipientsLabelled(recipients - {c}, n - {c}, organizations, r) && UniqueRecipients(recipients - {c})
  {
    assert forall x, x' :: SameRecipient(recipients - {c}, x, x') ==> SameRecipient(recipients, x, x');
  }

  lemma GrantsWithoutRecipient(
    auths: map<Id, Authorization>, grants: map<Id, Grant>, links: map<Id, Pair>, recipients: map<Id, Pair>, c: Id)
    requires GrantsLabelled(auths, grants, links, recipients)
    requires forall a :: a in auths ==> auths[a].recipientContact != c
    ensures GrantsLabelled(auths, grants, links, recipients - {c})
  {
  }

  lemma LinkDeleted(t: Tables, n: Labels, l: Id, twin: Id, r: Renaming) returns (n': Labels)
    requires Coherent(t, n, r) && l in t.links && twin in t.links && l != twin && n.links[l] == n.links[twin]
    requires forall a :: a in t.authorizations ==> t.authorizations[a].link != l
    ensures Coherent(t.(links := t.links - {l}), n', r)
    ensures n' == n.(links := n.links - {l}) && Keeps(ViewOf(n), ViewOf(n'))
  {
    assert Unfold(0);
    RedundantValue(n.links, l, twin);
    n' := n.(links := n.links - {l});
    LinkGone(t.links, n.links, l, n.shippers, n.organizations);
    GrantsWithoutLink(t.authorizations, n.grants, n.links, n.recipients, l);
    CoherentMadeOf(t.(links := t.links - {l}), n', r);
    SameRowsView(n, n');
  }

  lemma GrantsWithoutLink(
    auths: map<Id, Authorization>, grants: map<Id, Grant>, links: map<Id, Pair>, recipients: map<Id, Pair>, l: Id)
    requires GrantsLabelled(auths, grants, links, recipients)
    requires forall a :: a in auths ==> auths[a].link != l
    ensures GrantsLabelled(auths, grants, links - {l}, recipients)
  {
  }

  lemma LinkGone(links: map<Id, Link>, n: map<Id, Pair>, l: Id, shippers: map<Id, Id>, organizations: map<Id, Pair>)
    requires LinksLabelled(links, n, shippers, organizations) && UniqueLinks(links)
    ensures LinksLabelled(links - {l}, n - {l}, shippers, organizations) && UniqueLinks(links - {l})
  {
    assert forall x, x' :: SameLink(links - {l}, x, x') ==> SameLink(links, x, x');
  }

  lemma ShipperDeleted(t: Tables, n: Labels, s: Id, twin: Id, r: Renaming) returns (n': Labels)
    requires Coherent(t, n, r) && s in t.shippers && twin in t.shippers && s != twin
    requires n.shippers[s] == n.shippers[twin]
    requires forall l :: l in t.links ==> t.links[l].shipper != s
    ensures Coherent(t.(shippers := t.shippers - {s}), n', r)
    ensures n' == n.(shippers := n.shippers - {s}) && Keeps(ViewOf(n), ViewOf(n'))
  {
    assert Unfold(0);
    RedundantValue(n.shippers, s, twin);
    n' := n.(shippers := n.shippers - {s});
    ShipperGone(t.shippers, n.shippers, s, r);
    LinksWithoutShipper(t.links, n.links, n.shippers, n.organizations, s);
    CoherentMadeOf(t.(shippers := t.shippers - {s}), n', r);
    SameRowsView(n, n');
  }

  lemma ShipperGone(shippers: map<Id, Shipper>, n: map<Id, Id>, s: Id, r: Renaming)
    requires ShippersLabelled(shippers, n, r) && UniqueShippers(shippers)
    ensures ShippersLabelled(shippers - {s}, n - {s}, r) && UniqueShippers(shippers - {s})
  {
    assert forall x, x' :: SameShipper(shippers - {s}, x, x') ==> SameShipper(shippers, x, x');
  }

  lemma LinksWithoutShipper(
    links: map<Id, Link>, n: map<Id, Pair>, shippers: map<Id, Id>, organizations: map<Id, Pair>, s: Id)
    requires LinksLabelled(links, n, shippers, organizations)
    requires forall l :: l in links ==> links[l].shipper != s
    ensures LinksLabelled(links, n, shippers - {s}, organizations)
  {
  }

  lemma OrganizationDeleted(t: Tables, n: Labels, o: Id, twin: Id, r: Renaming) returns (n': Labels)
    requires Coherent(t, n, r) && o in t.organizations && twin in t.organizations && o != twin
    requires n.organizations[o] == n.organizations[twin]
    requires forall l :: l in t.links ==> t.links[l].recipientOrganization != o
    requires forall c :: c in t.recipients ==> t.recipients[c].recipientOrganization != o
    ensures Coherent(t.(organizations := t.organizations - {o}), n', r)
    ensures n' == n.(organizations := n.organizations - {o}) && Keeps(ViewOf(n), ViewOf(n'))
  {
    assert Unfold(0);
    RedundantValue(n.organizations, o, twin);
    n' := n.(organizations := n.organizations - {o});
    OrganizationGone(t.organizations, n.organizations, o, r);
    LinksWithoutOrganization(t.links, n.links, n.shippers, n.organizations, o);
    RecipientsWithoutOrganization(t.recipients, n.recipients, n.organizations, r, o);
    CoherentMadeOf(t.(organizations := t.organizations - {o}), n', r);
    SameRowsView(n, n');
  }

  lemma OrganizationGone(organizations: map<Id, RecipientOrganization>, n: map<Id, Pair>, o: Id, r: Renaming)
    requires OrganizationsLabelled(organizations, n, r) && UniqueOrganizations(organizations)
    requires OneCorrespondent(organizations, r)
    ensures OrganizationsLabelled(organizations - {o}, n - {o}, r)
    ensures UniqueOrganizations(organizations - {o}) && OneCorrespondent(organizations - {o}, r)
  {
    assert forall x, x' :: SameOrganization(organizations - {o}, x, x') ==> SameOrganization(organizations, x, x');
    assert forall x, x' :: Rivals(organizations - {o}, r, x, x') ==> Rivals(organizations, r, x, x');
  }

  lemma LinksWithoutOrganization(
    links: map<Id, Link>, n: map<Id, Pair>, shippers: map<Id, Id>, organizations: map<Id, Pair>, o: Id)
    requires LinksLabelled(links, n, shippers, organizations)
    requires forall l :: l in links ==> links[l].recipientOrganization != o
    ensures LinksLabelled(links, n, shippers, organizations - {o})
  {
  }

  lemma RecipientsWithoutOrganization(
    recipients: map<Id, RecipientContact>, n: map<Id, Pair>, organizations: map<Id, Pair>, r: Renaming, o: Id)
    requires RecipientsLabelled(recipients, n, organizations, r)
    requires forall c :: c in recipients ==> recipients[c].recipientOrganization != o
    ensures RecipientsLabelled(recipients, n, organizations - {o}, r)
  {
  }
}
