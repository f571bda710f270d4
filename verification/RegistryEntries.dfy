/** The authorizations without their links: who ships to which recipient organization through which contact, and what
    folding one shipper into another makes of that, in closed form (wms/admin_contacts_merge_service.py). */
module RegistryEntries {
  import opened Ids
  import opened RegistryTables
  import opened RegistrySteps
  import opened LinkJoin
  import opened AuthorizationMerge
  import opened LinkMerge

  datatype Entry = Entry(shipper: Id, organization: Id, contact: Id, isDefault: bool, active: bool)

  ghost predicate LinksResolve(links: map<Id, Link>, auths: map<Id, Authorization>) {
    forall a :: a in auths ==> auths[a].link in links
  }

  ghost function EntryOf(link: Link, row: Authorization): Entry {
    Entry(link.shipper, link.recipientOrganization, row.recipientContact, row.isDefault, row.active)
  }

  ghost function Entries(links: map<Id, Link>, auths: map<Id, Authorization>): map<Id, Entry>
    requires LinksResolve(links, auths)
  {
    map a | a in auths :: EntryOf(links[auths[a].link], auths[a])
  }

  ghost predicate EntryFor(f: map<Id, Entry>, e: Id, shipper: Id, organization: Id, contact: Id) {
    e in f && f[e].shipper == shipper && f[e].organization == organization && f[e].contact == contact
  }

  ghost predicate ActiveFor(f: map<Id, Entry>, e: Id, shipper: Id, organization: Id, contact: Id) {
    EntryFor(f, e, shipper, organization, contact) && f[e].active
  }

  ghost predicate DefaultOf(f: map<Id, Entry>, e: Id, shipper: Id, organization: Id) {
    e in f && f[e].shipper == shipper && f[e].organization == organization && f[e].isDefault
  }

  /** The entry of the source shipper meets one of the target shipper, which takes over. */
  ghost predicate MeetsTarget(f: map<Id, Entry>, source: Id, target: Id, a: Id) {
    && a in f && f[a].shipper == source
    && exists e :: EntryFor(f, e, target, f[a].organization, f[a].contact)
  }

  /** What becomes of an entry of either shipper: it is active if one of the two was; the source's default prevails. */
  ghost function JoinedEntry(f: map<Id, Entry>, source: Id, target: Id, a: Id): Entry
    requires a in f
  {
    var e := f[a];
    if e.shipper != source && e.shipper != target then e
    else
      var active := e.active || exists b :: ActiveFor(f, b, source, e.organization, e.contact);
      var isDefault :=
        if exists d :: DefaultOf(f, d, source, e.organization)
        then exists d :: DefaultOf(f, d, source, e.organization) && f[d].contact == e.contact
        else e.isDefault;
      e.(shipper := target, active := active, isDefault := isDefault)
  }

  /** The entries after folding one shipper into another. */
  ghost function JoinedEntries(f: map<Id, Entry>, source: Id, target: Id): map<Id, Entry> {
    map a | a in f && !MeetsTarget(f, source, target, a) :: JoinedEntry(f, source, target, a)
  }

  ghost predicate EntryJoined(f: map<Id, Entry>, f': map<Id, Entry>, source: Id, target: Id, os: set<Id>, a: Id) {
    && (a in f' <==> a in f && !(f[a].organization in os && MeetsTarget(f, source, target, a)))
    && (a in f' ==> f'[a] == if f[a].organization in os then JoinedEntry(f, source, target, a) else f[a])
  }

  /** The entries for these organizations are joined, the others are as they were. Folded like `Coherent`. */
  ghost predicate EntriesJoined(f: map<Id, Entry>, f': map<Id, Entry>, source: Id, target: Id, os: set<Id>) {
    forall u :: Unfold(u) ==> forall a :: EntryJoined(f, f', source, target, os, a)
  }

  lemma EntriesJoinedAtFirst(f: map<Id, Entry>, source: Id, target: Id)
    ensures EntriesJoined(f, f, source, target, {})
  {
  }

  /** Organizations are joined independently of each other. */
  lemma EntriesJoinedMore(
    f: map<Id, Entry>, f': map<Id, Entry>, f'': map<Id, Entry>, source: Id, target: Id, os: set<Id>, o: Id)
    requires EntriesJoined(f, f', source, target, os) && EntriesJoined(f', f'', source, target, {o}) && o !in os
    ensures EntriesJoined(f, f'', source, target, os + {o})
  {
    assert Unfold(0);
    forall b ensures b in f' && f'[b].organization == o <==> b in f && f[b].organization == o {
      assert EntryJoined(f, f', source, target, os, b);
    }
    forall b | b in f && f[b].organization == o ensures f'[b] == f[b] {
      assert EntryJoined(f, f', source, target, os, b);
    }
    forall a ensures EntryJoined(f, f'', source, target, os + {o}, a) {
      assert EntryJoined(f, f', source, target, os, a) && EntryJoined(f', f'', source, target, {o}, a);
      if a in f && f[a].organization == o { JoinedAlike(f, f', source, target, o, a); }
    }
  }

  /** What becomes of an entry depends on the entries of its organization only. */
  lemma JoinedAlike(f: map<Id, Entry>, f': map<Id, Entry>, source: Id, target: Id, o: Id, a: Id)
    requires forall b :: b in f' && f'[b].organization == o <==> b in f && f[b].organization == o
    requires forall b :: b in f && f[b].organization == o ==> f'[b] == f[b]
    requires a in f && a in f' && f[a].organization == o
    ensures MeetsTarget(f, source, target, a) <==> MeetsTarget(f', source, target, a)
    ensures JoinedEntry(f, source, target, a) == JoinedEntry(f', source, target, a)
  {
    var c := f[a].contact;
    assert forall e, z :: EntryFor(f, e, z, o, c) <==> EntryFor(f', e, z, o, c);
    assert forall e :: ActiveFor(f, e, source, o, c) <==> ActiveFor(f', e, source, o, c);
    assert forall d :: DefaultOf(f, d, source, o) <==> DefaultOf(f', d, source, o);
    assert forall d :: DefaultOf(f, d, source, o) && f[d].contact == c <==>
      DefaultOf(f', d, source, o) && f'[d].contact == c;
  }

  /** Once all organizations of the source shipper are joined, so are all entries. */
  lemma EntriesJoinedAtLast(f: map<Id, Entry>, f': map<Id, Entry>, source: Id, target: Id, os: set<Id>)
    requires EntriesJoined(f, f', source, target, os)
    requires forall a :: a in f && f[a].shipper == source ==> f[a].organization in os
    ensures f' == JoinedEntries(f, source, target)
  {
    assert Unfold(0);
    forall a ensures a in f' <==> a in JoinedEntries(f, source, target) {
      assert EntryJoined(f, f', source, target, os, a);
    }
    forall a | a in f' ensures f'[a] == JoinedEntries(f, source, target)[a] {
      assert EntryJoined(f, f', source, target, os, a);
      if f[a].organization !in os {
        assert forall b :: !ActiveFor(f, b, source, f[a].organization, f[a].contact);
        assert forall d :: !DefaultOf(f, d, source, f[a].organization);
      }
    }
  }

  /** Placing one link of the source shipper joins the entries of its organization. */
  lemma PlacedJoins(
    links: map<Id, Link>, auths: map<Id, Authorization>, links': map<Id, Link>, auths': map<Id, Authorization>,
    l: Id, row: Link, target: Id)
    requires l in links && row == links[l].(shipper := target) && target != links[l].shipper && UniqueLinks(links)
    requires UniqueAuthorizations(auths) && OneDefaultPerLink(auths)
    requires LinkPlaced(links, auths, links', auths', l, row)
    requires LinksResolve(links, auths) && LinksResolve(links', auths')
    ensures EntriesJoined(
      Entries(links, auths), Entries(links', auths'), links[l].shipper, target, {links[l].recipientOrganization})
  {
    assert Unfold(0);
    var f, f', s, o := Entries(links, auths), Entries(links', auths'), links[l].shipper, links[l].recipientOrganization;
    forall a ensures EntryJoined(f, f', s, target, {o}, a) {
      if forall k :: !Twin(links, k, row) {
        MovedEntry(links, auths, l, row, a);
      } else {
        var k :| Twin(links, k, row) && links' == links - {l} && JoinedLinks(auths, auths', l, k);
        assert JoinedRow(auths, auths', [], l, k, a);
        TwinEntry(links, auths, auths', l, k, a);
      }
    }
  }

  /** The entries of one link. */
  lemma EntriesOfLink(links: map<Id, Link>, auths: map<Id, Authorization>, l: Id, c: Id)
    requires l in links && UniqueLinks(links) && LinksResolve(links, auths)
    ensures var f := Entries(links, auths);
      && (forall b :: EntryFor(f, b, links[l].shipper, links[l].recipientOrganization, c)
            <==> b in auths && auths[b].link == l && auths[b].recipientContact == c)
      && (forall b :: DefaultOf(f, b, links[l].shipper, links[l].recipientOrganization)
            <==> b in auths && auths[b].link == l && auths[b].isDefault)
  {
    forall b | b in auths && SameLink(links, auths[b].link, l) ensures auths[b].link == l {
    }
  }

  lemma MovedEntry(links: map<Id, Link>, auths: map<Id, Authorization>, l: Id, row: Link, a: Id)
    requires l in links && UniqueLinks(links) && UniqueAuthorizations(auths) && OneDefaultPerLink(auths)
    requires row == links[l].(shipper := row.shipper) && row.shipper != links[l].shipper
    requires (forall k :: !Twin(links, k, row)) && LinksResolve(links, auths)
    ensures EntryJoined(Entries(links, auths), Entries(links[l := row], auths), links[l].shipper, row.shipper,
      {links[l].recipientOrganization}, a)
  {
    var f, o := Entries(links, auths), links[l].recipientOrganization;
    if a in auths && f[a].organization == o {
      var c := f[a].contact;
      EntriesOfLink(links, auths, l, c);
      assert f[a].shipper == links[l].shipper ==> EntryFor(f, a, links[l].shipper, o, c) && auths[a].link == l;
      forall e ensures !EntryFor(f, e, row.shipper, o, c) {
        if e in auths { assert !Twin(links, auths[e].link, row); }
      }
      forall b | b in auths && auths[b].link == l && auths[a].link == l && auths[b].recipientContact == c
        ensures b == a
      {
        assert SameSlot(auths, a, b);
      }
      forall d | d in auths && auths[d].link == l && auths[d].isDefault && auths[a].link == l && auths[a].isDefault
        ensures d == a
      {
        assert BothDefault(auths, a, d);
      }
      assert !EntryFor(f, a, row.shipper, o, c);
      if auths[a].link == l {
        assert f[a].shipper == links[l].shipper && Entries(links[l := row], auths)[a] == f[a].(shipper := row.shipper);
        assert (exists b :: ActiveFor(f, b, links[l].shipper, o, c)) ==> f[a].active;
        if f[a].isDefault {
          assert DefaultOf(f, a, links[l].shipper, o);
        } else {
          assert forall d :: DefaultOf(f, d, links[l].shipper, o) && f[d].contact == c ==> d == a;
        }
      }
    }
  }

  lemma TwinEntry(
    links: map<Id, Link>, auths: map<Id, Authorization>, auths': map<Id, Authorization>, l: Id, k: Id, a: Id)
    requires l in links && k in links && l != k && UniqueLinks(links)
    requires links[l].recipientOrganization == links[k].recipientOrganization && links[l].shipper != links[k].shipper
    requires LinksResolve(links, auths) && LinksResolve(links - {l}, auths')
    requires JoinedRow(auths, auths', [], l, k, a)
    ensures EntryJoined(Entries(links, auths), Entries(links - {l}, auths'), links[l].shipper, links[k].shipper,
      {links[l].recipientOrganization}, a)
  {
    var f, s, x, o := Entries(links, auths), links[l].shipper, links[k].shipper, links[l].recipientOrganization;
    if a in auths {
      var c := auths[a].recipientContact;
      EntriesOfLink(links, auths, l, c);
      EntriesOfLink(links, auths, k, c);
      assert f[a].shipper == s && f[a].organization == o ==> EntryFor(f, a, s, o, c);
      assert f[a].shipper == x && f[a].organization == o ==> EntryFor(f, a, x, o, c);
      assert !SlotFree(auths, k, c) <==> exists e :: EntryFor(f, e, x, o, c);
      assert forall b :: VisitedActive(auths, [], l, b, c) <==> ActiveFor(f, b, s, o, c);
      assert forall d :: VisitedDefault(auths, [], l, d) <==> DefaultOf(f, d, s, o);
    }
  }

  // ---------------------------------------------------------------- a loop over the links of a shipper

  /** The organizations of the links that the loop has placed. */
  ghost function PlacedOrganizations(links: map<Id, Link>, ids: seq<Id>, source: Id): set<Id> {
    set l | l in links && links[l].shipper == source && l !in ids :: links[l].recipientOrganization
  }

  /** How far the loop has joined the entries. Folded like `Coherent`. */
  ghost predicate EntriesProgress(t: Tables, now: Tables, ids: seq<Id>, source: Id, target: Id) {
    forall u :: Unfold(u) ==>
      && LinksResolve(t.links, t.authorizations) && LinksResolve(now.links, now.authorizations)
      && EntriesJoined(Entries(t.links, t.authorizations), Entries(now.links, now.authorizations), source, target,
                       PlacedOrganizations(t.links, ids, source))
  }

  lemma EntriesProgressAtFirst(t: Tables, ids: seq<Id>, source: Id, target: Id)
    requires LinksResolve(t.links, t.authorizations)
    requires forall l :: l in t.links && t.links[l].shipper == source ==> l in ids
    ensures EntriesProgress(t, t, ids, source, target)
  {
    assert PlacedOrganizations(t.links, ids, source) == {};
    EntriesJoinedAtFirst(Entries(t.links, t.authorizations), source, target);
  }

  lemma EntriesProgressStep(
    t: Tables, now: Tables, after: Tables, ids: seq<Id>, rest: seq<Id>, row: Link, source: Id, target: Id)
    requires EntriesProgress(t, now, ids, source, target) && source != target && UniqueLinks(t.links)
    requires UniqueLinks(now.links) && UniqueAuthorizations(now.authorizations)
    requires OneDefaultPerLink(now.authorizations)
    requires LinksResolve(after.links, after.authorizations)
    requires Awaiting(t.links, now.links, ids, ShipperOf, source) && ids != [] && rest == ids[1..]
    requires ids[0] in now.links && row == now.links[ids[0]].(shipper := target)
    requires LinkPlaced(now.links, now.authorizations, after.links, after.authorizations, ids[0], row)
    ensures EntriesProgress(t, after, rest, source, target)
  {
    AwaitingNext(t.links, now.links, ids, ShipperOf, source);
    var l := ids[0];
    var o := t.links[l].recipientOrganization;
    var os := PlacedOrganizations(t.links, ids, source);
    assert l in ids && l !in rest && forall k :: k in ids <==> k == l || k in rest;
    forall k | k in t.links && t.links[k].shipper == source && k !in ids ensures t.links[k].recipientOrganization != o {
      assert !SameLink(t.links, k, l);
    }
    assert PlacedOrganizations(t.links, rest, source) == os + {o};
    assert Unfold(0);
    PlacedJoins(now.links, now.authorizations, after.links, after.authorizations, l, row, target);
    EntriesJoinedMore(
      Entries(t.links, t.authorizations), Entries(now.links, now.authorizations),
      Entries(after.links, after.authorizations), source, target, os, o);
  }

  /** The authorizations of one shipper are joined with those of the other. */
  ghost predicate ShippersJoined(t: Tables, after: Tables, source: Id, target: Id) {
    && LinksResolve(t.links, t.authorizations) && LinksResolve(after.links, after.authorizations)
    && Entries(after.links, after.authorizations)
         == JoinedEntries(Entries(t.links, t.authorizations), source, target)
  }

  lemma EntriesProgressAtLast(t: Tables, now: Tables, source: Id, target: Id)
    requires EntriesProgress(t, now, [], source, target)
    ensures ShippersJoined(t, now, source, target)
  {
    assert Unfold(0);
    var f, os := Entries(t.links, t.authorizations), PlacedOrganizations(t.links, [], source);
    forall a | a in f && f[a].shipper == source ensures f[a].organization in os {
      assert t.authorizations[a].link in t.links;
    }
    EntriesJoinedAtLast(f, Entries(now.links, now.authorizations), source, target, os);
  }

  // ---------------------------------------------------------------- what joined entries keep

  /** Each entry names a contact of its recipient organization. */
  ghost predicate OwnEntries(recipients: map<Id, RecipientContact>, f: map<Id, Entry>) {
    forall a :: a in f ==>
      f[a].contact in recipients && recipients[f[a].contact].recipientOrganization == f[a].organization
  }

  /** Each authorization names a contact of its link's recipient organization. */
  ghost predicate Owned(t: Tables) {
    Resolved(t) && OwnContacts(t)
  }

  lemma OwnContactsAreOwnEntries(t: Tables)
    requires Resolved(t)
    ensures LinksResolve(t.links, t.authorizations)
    ensures Owned(t) <==> OwnEntries(t.recipients, Entries(t.links, t.authorizations))
  {
    var f := Entries(t.links, t.authorizations);
    if OwnEntries(t.recipients, f) {
      forall a | a in t.authorizations
        ensures t.recipients[t.authorizations[a].recipientContact].recipientOrganization
             == t.links[t.authorizations[a].link].recipientOrganization
      {
        assert a in f;
      }
    }
  }

  /** During the loop contacts stay contacts of their organizations. */
  lemma ProgressKeepsOwn(t: Tables, now: Tables, ids: seq<Id>, source: Id, target: Id)
    requires EntriesProgress(t, now, ids, source, target) && Resolved(now)
    requires now.recipients == t.recipients && Owned(t)
    ensures Owned(now)
  {
    assert Unfold(0);
    OwnContactsAreOwnEntries(t);
    OwnContactsAreOwnEntries(now);
    var f, f' := Entries(t.links, t.authorizations), Entries(now.links, now.authorizations);
    forall a | a in f'
      ensures f'[a].contact in t.recipients && t.recipients[f'[a].contact].recipientOrganization == f'[a].organization
    {
      assert EntryJoined(f, f', source, target, PlacedOrganizations(t.links, ids, source), a);
    }
  }
}
