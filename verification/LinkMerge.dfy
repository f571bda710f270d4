/** Giving links new foreign keys: each link moves, or its authorizations join those of the link that has these keys
    (wms/admin_contacts_merge_service.py). */
module LinkMerge {
  import opened Ids
  import opened RegistryTables
  import opened RegistrySteps
  import opened RegistryWrites
  import opened LinkJoin
  import opened AuthorizationMerge

  function ShipperOf(l: Link): Id {
    l.shipper
  }

  function OrganizationOfLink(l: Link): Id {
    l.recipientOrganization
  }

  // ---------------------------------------------------------------- links placed under new foreign keys

  ghost predicate Twin(links: map<Id, Link>, k: Id, row: Link) {
    k in links && links[k].shipper == row.shipper && links[k].recipientOrganization == row.recipientOrganization
  }

  /** The link cannot be merged into the one that has the new foreign keys. */
  ghost predicate TwinBlocked(links: map<Id, Link>, auths: map<Id, Authorization>, l: Id, row: Link) {
    exists k, a :: Twin(links, k, row) && Blocked(auths, a, l, k)
  }

  /** The link took its new foreign keys, or its authorizations went to the link that has them. Folded like
      `Coherent`. */
  ghost predicate LinkPlaced(
    links: map<Id, Link>, auths: map<Id, Authorization>, links': map<Id, Link>, auths': map<Id, Authorization>, l: Id,
    row: Link)
  {
    forall u :: Unfold(u) ==>
      || ((forall k :: !Twin(links, k, row)) && links' == links[l := row] && auths' == auths)
      || (exists k :: Twin(links, k, row) && links' == links - {l} && JoinedLinks(auths, auths', l, k))
  }

  /** The authorizations of `l` went to `k`. */
  ghost predicate JoinedLinks(auths: map<Id, Authorization>, auths': map<Id, Authorization>, l: Id, k: Id) {
    l != k && OffLinksKept(auths, auths', l, k) && Joined(auths, auths', [], l, k)
  }

  // ---------------------------------------------------------------- blocked pairs of links

  /** A loop gives links a new shipper or a new recipient organization. */
  datatype Side = OfShippers | OfOrganizations

  /** The foreign key that changes, and the one that stays. */
  function KeyOf(side: Side): Link -> Id {
    if side.OfShippers? then ShipperOf else OrganizationOfLink
  }

  function OtherOf(side: Side): Link -> Id {
    if side.OfShippers? then OrganizationOfLink else ShipperOf
  }

  function Rekeyed(side: Side, row: Link, target: Id): Link {
    if side.OfShippers? then row.(shipper := target) else row.(recipientOrganization := target)
  }

  /** A link of the source and one of the target, equal in their other key, cannot be merged. */
  ghost predicate PairBlocked(
    side: Side, links: map<Id, Link>, auths: map<Id, Authorization>, l: Id, k: Id, a: Id, source: Id, target: Id)
  {
    && l in links && k in links && KeyOf(side)(links[l]) == source && KeyOf(side)(links[k]) == target
    && OtherOf(side)(links[l]) == OtherOf(side)(links[k]) && Blocked(auths, a, l, k)
  }

  ghost predicate PairsBlocked(
    side: Side, links: map<Id, Link>, auths: map<Id, Authorization>, source: Id, target: Id)
  {
    exists l, k, a :: PairBlocked(side, links, auths, l, k, a, source, target)
  }

  /** The blocked links are blocked until they are reached. Folded like `Coherent`. */
  ghost predicate StillPairsBlocked(
    side: Side, t: Tables, links: map<Id, Link>, auths: map<Id, Authorization>, ids: seq<Id>, source: Id, target: Id)
  {
    forall u :: Unfold(u) ==>
      forall l, k, a :: PairBlocked(side, t.links, t.authorizations, l, k, a, source, target)
        <==> l in ids && PairBlocked(side, links, auths, l, k, a, source, target)
  }

  lemma StillPairsAtFirst(side: Side, t: Tables, ids: seq<Id>, source: Id, target: Id)
    requires forall l :: l in t.links && KeyOf(side)(t.links[l]) == source ==> l in ids
    ensures StillPairsBlocked(side, t, t.links, t.authorizations, ids, source, target)
  {
  }

  lemma StillPairsNone(
    side: Side, t: Tables, links: map<Id, Link>, auths: map<Id, Authorization>, source: Id, target: Id)
    requires StillPairsBlocked(side, t, links, auths, [], source, target)
    ensures !PairsBlocked(side, t.links, t.authorizations, source, target)
  {
    assert Unfold(0);
  }

  lemma StillPairsSome(
    side: Side, t: Tables, links: map<Id, Link>, auths: map<Id, Authorization>, ids: seq<Id>, source: Id, target: Id,
    row: Link)
    requires StillPairsBlocked(side, t, links, auths, ids, source, target) && ids != [] && ids[0] in links
    requires KeyOf(side)(links[ids[0]]) == source && row == Rekeyed(side, links[ids[0]], target)
    requires TwinBlocked(links, auths, ids[0], row)
    ensures PairsBlocked(side, t.links, t.authorizations, source, target)
  {
    assert Unfold(0);
    var k, a :| Twin(links, k, row) && Blocked(auths, a, ids[0], k);
    assert PairBlocked(side, links, auths, ids[0], k, a, source, target);
  }

  /** Whether an authorization is blocked depends on the two links only. */
  lemma BlockedElsewhere(
    auths: map<Id, Authorization>, after: map<Id, Authorization>, x: Id, y: Id, l: Id, k: Id, a: Id)
    requires OffLinksKept(auths, after, x, y) && l != x && l != y && k != x && k != y
    ensures Blocked(auths, a, l, k) ==> Blocked(after, a, l, k)
  {
    assert Unfold(0);
    if Blocked(auths, a, l, k) {
      assert HasLink(auths, a, l);
      forall b | b in after && after[b].link == k
        ensures after[b].recipientContact != auths[a].recipientContact
      {
        assert HasLink(after, b, k);
      }
      var e :| ActiveByThen(auths, e, a, l, k);
      assert HasLink(auths, e, k);
      if b :| ActivatesBefore(auths, b, e, a, l) {
        assert HasLink(auths, b, l);
        assert ActivatesBefore(after, b, e, a, l);
      }
      assert ActiveByThen(after, e, a, l, k);
    }
  }

  lemma OffLinksKeptBack(auths: map<Id, Authorization>, after: map<Id, Authorization>, x: Id, y: Id)
    requires OffLinksKept(auths, after, x, y)
    ensures OffLinksKept(after, auths, x, y)
  {
    assert Unfold(0);
  }

  /** A link that is not blocked leaves the other links blocked or unblocked as they were. */
  lemma StillPairsStep(
    side: Side, t: Tables, links: map<Id, Link>, auths: map<Id, Authorization>, links': map<Id, Link>,
    auths': map<Id, Authorization>, ids: seq<Id>, rest: seq<Id>, row: Link, source: Id, target: Id)
    requires StillPairsBlocked(side, t, links, auths, ids, source, target) && UniqueLinks(links) && source != target
    requires Awaiting(t.links, links, ids, KeyOf(side), source) && ids != [] && rest == ids[1..] && ids[0] in links
    requires KeyOf(side)(links[ids[0]]) == source && row == Rekeyed(side, links[ids[0]], target)
    requires LinkPlaced(links, auths, links', auths', ids[0], row)
    requires !TwinBlocked(links, auths, ids[0], row)
    ensures StillPairsBlocked(side, t, links', auths', rest, source, target)
  {
    assert Unfold(0);
    var x := ids[0];
    forall l, k, a
      ensures PairBlocked(side, t.links, t.authorizations, l, k, a, source, target)
        <==> l in rest && PairBlocked(side, links', auths', l, k, a, source, target)
    {
      if l in rest {
        assert l in ids && l > x && l in links && KeyOf(side)(links[l]) == source;
        OtherPairKept(side, links, auths, links', auths', x, row, l, k, a, source, target);
      } else if l in ids {
        assert l == x;
        assert PairBlocked(side, links, auths, x, k, a, source, target) ==> Twin(links, k, row);
      }
    }
  }

  lemma OtherPairKept(
    side: Side, links: map<Id, Link>, auths: map<Id, Authorization>, links': map<Id, Link>,
    auths': map<Id, Authorization>, x: Id, row: Link, l: Id, k: Id, a: Id, source: Id, target: Id)
    requires UniqueLinks(links) && source != target && x in links && l in links && l != x
    requires KeyOf(side)(links[x]) == source && KeyOf(side)(links[l]) == source
    requires row == Rekeyed(side, links[x], target) && LinkPlaced(links, auths, links', auths', x, row)
    ensures PairBlocked(side, links, auths, l, k, a, source, target)
      <==> PairBlocked(side, links', auths', l, k, a, source, target)
  {
    assert Unfold(0);
    assert !SameLink(links, l, x);
    if forall k :: !Twin(links, k, row) {
    } else {
      var y :| Twin(links, y, row) && links' == links - {x} && JoinedLinks(auths, auths', x, y);
      if k != y && k != x && k in links {
        OffLinksKeptBack(auths, auths', x, y);
        BlockedElsewhere(auths, auths', x, y, l, k, a);
        BlockedElsewhere(auths', auths, x, y, l, k, a);
      }
    }
  }

  /** No link changed its activity, and none was added. Folded like `Coherent`. */
  ghost predicate LinksKept(before: map<Id, Link>, after: map<Id, Link>) {
    forall u :: Unfold(u) ==>
      forall l :: l in after ==> l in before && after[l].active == before[l].active
  }

  lemma LinksKeptItself(links: map<Id, Link>)
    ensures LinksKept(links, links)
  {
  }

  lemma LinksKeptStep(before: map<Id, Link>, links: map<Id, Link>, after: map<Id, Link>, l: Id, row: Link)
    requires LinksKept(before, links) && l in links && row.active == links[l].active
    requires after == links[l := row] || after == links - {l}
    ensures LinksKept(before, after)
  {
    assert Unfold(0);
  }

  lemma LinksKeptTransitive(before: map<Id, Link>, between: map<Id, Link>, after: map<Id, Link>)
    requires LinksKept(before, between) && LinksKept(between, after)
    ensures LinksKept(before, after)
  {
    assert Unfold(0);
  }

  // ---------------------------------------------------------------- one link

  /** One round of a loop over links: the link takes its new foreign keys, or is merged into the link that has them. */
  method MoveLink(w: World, rules: Rules, l: Id, row: Link, ghost n: Labels, ghost r: Renaming)
    returns (saved: Saved, ghost n': Labels)
    requires Coherent(w.tables, n, r) && l in w.tables.links
    requires row.shipper in w.tables.shippers && row.recipientOrganization in w.tables.organizations
    requires !(row.shipper == w.tables.links[l].shipper
      && row.recipientOrganization == w.tables.links[l].recipientOrganization)
    requires Pair(n.shippers[row.shipper], n.organizations[row.recipientOrganization].left) == n.links[l]
    ensures saved.Done? ==>
      saved.tables == w.tables.(authorizations := saved.tables.authorizations, links := saved.tables.links)
    ensures saved.Done? ==> saved.tables.links == w.tables.links[l := row] || saved.tables.links == w.tables.links - {l}
    ensures saved.Done?
      ==> LinkPlaced(w.tables.links, w.tables.authorizations, saved.tables.links, saved.tables.authorizations, l, row)
    ensures saved.Done? && OneActiveDefault(rules) ==> !TwinBlocked(w.tables.links, w.tables.authorizations, l, row)
    ensures saved.Refused? ==>
      DefaultsExplain(rules, ContactsAt(w.tables, w.tables.authorizations, l, row.recipientOrganization),
                      TwinBlocked(w.tables.links, w.tables.authorizations, l, row))
    ensures saved.Done? ==> Coherent(saved.tables, n', r) && Keeps(ViewOf(n), ViewOf(n'))
    ensures saved.Done? ==> n' == n.(grants := n'.grants, links := n'.links)
    ensures Permissive(rules) ==> saved.Done?
    ensures saved.Refused? ==> saved.why == Invalid
  {
    n' := n;
    KeepsItself(ViewOf(n));
    var t := w.tables;
    var held := set e | e in t.links && t.links[e].shipper == row.shipper
        && t.links[e].recipientOrganization == row.recipientOrganization;
    assert forall e :: e in held <==> Twin(t.links, e, row);
    if held == {} {
      NoTwin(t.links, row);
      saved := SaveLink(w, rules, l, row);
      LinkSaved(t, n, l, row, r);
      if saved.Refused? { OtherReason(rules); }
    } else {
      var existing :| existing in held;
      SameLabel(t, n, existing, row, r);
      assert Twin(t.links, existing, row);
      OneTwin(t, n, existing, row, r);
      saved, n' := MergeShipperLinks(w, rules, l, existing, n, r);
      if saved.Refused? {
        JoinExplained(w.tables, rules, l, existing, row);
      }
    }
  }

  lemma OneTwin(t: Tables, n: Labels, e: Id, row: Link, r: Renaming)
    requires Coherent(t, n, r) && Twin(t.links, e, row)
    ensures forall k :: Twin(t.links, k, row) ==> k == e
  {
    assert Unfold(0);
    assert forall k :: Twin(t.links, k, row) ==> SameLink(t.links, k, e);
  }

  lemma SameLabel(t: Tables, n: Labels, e: Id, row: Link, r: Renaming)
    requires Coherent(t, n, r) && e in t.links && row.shipper in t.shippers
    requires row.recipientOrganization in t.organizations
    requires t.links[e].shipper == row.shipper && t.links[e].recipientOrganization == row.recipientOrganization
    ensures n.links[e] == Pair(n.shippers[row.shipper], n.organizations[row.recipientOrganization].left)
  {
    assert Unfold(0);
  }

  /** The contacts of the link belong to this recipient organization. */
  ghost predicate ContactsAt(t: Tables, auths: map<Id, Authorization>, l: Id, o: Id) {
    forall a :: a in auths && auths[a].link == l ==>
      auths[a].recipientContact in t.recipients && t.recipients[auths[a].recipientContact].recipientOrganization == o
  }

  lemma NoTwin(links: map<Id, Link>, row: Link)
    requires forall k :: !Twin(links, k, row)
    ensures forall l :: l in links ==>
      links[l].shipper != row.shipper || links[l].recipientOrganization != row.recipientOrganization
  {
    forall l | l in links
      ensures links[l].shipper != row.shipper || links[l].recipientOrganization != row.recipientOrganization
    {
      assert !Twin(links, l, row);
    }
  }

  lemma JoinExplained(t: Tables, rules: Rules, l: Id, k: Id, row: Link)
    requires Twin(t.links, k, row)
    requires DefaultsExplain(rules, LinkFits(t, t.authorizations, l, k), exists a :: Blocked(t.authorizations, a, l, k))
    ensures DefaultsExplain(rules, ContactsAt(t, t.authorizations, l, row.recipientOrganization),
                            TwinBlocked(t.links, t.authorizations, l, row))
  {
    ExplainedBy(rules, LinkFits(t, t.authorizations, l, k), exists a :: Blocked(t.authorizations, a, l, k),
      ContactsAt(t, t.authorizations, l, row.recipientOrganization),
      TwinBlocked(t.links, t.authorizations, l, row));
  }
}
