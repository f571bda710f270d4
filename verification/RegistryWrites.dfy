/** The writes of the merge on the shipment-party registry: saves that the models' validation may refuse, deletes that
    cascade, and the folding of one authorization into another (wms/admin_contacts_merge_service.py).

    Every `save` of a registry row may be refused by the model's own validation. Validation is a parameter:
    what is proved about a successful merge holds whatever rows the validation refuses. */
module RegistryWrites {
  import opened Ids
  import opened ContactBook
  import opened RegistryTables
  import opened RegistrySteps

  datatype Destination = Destination(correspondent: Id, active: bool)

  /** What a validation may look at. */
  datatype World = World(tables: Tables, contacts: Contacts, destinations: map<Id, Destination>)

  /** `full_clean` of the four kinds of registry rows, as far as it decides whether a row may be saved. */
  datatype Rules = Rules(
    shipper: (World, Id, Shipper) -> bool,
    organization: (World, Id, RecipientOrganization) -> bool,
    recipient: (World, Id, RecipientContact) -> bool,
    link: (World, Id, Link) -> bool,
    authorization: (World, Id, Authorization) -> bool)

  /** The validation refuses nothing. */
  ghost predicate Permissive(rules: Rules) {
    && (forall w, k, row :: rules.shipper(w, k, row))
    && (forall w, k, row :: rules.organization(w, k, row))
    && (forall w, k, row :: rules.recipient(w, k, row))
    && (forall w, k, row :: rules.link(w, k, row))
    && (forall w, k, row :: rules.authorization(w, k, row))
  }

  // ---------------------------------------------------------------- lookups

  /** The shipper of an organization; there is at most one. */
  function ShipperFor(shippers: map<Id, Shipper>, organization: Id): (found: Option<Id>)
    ensures found.Some? ==> found.value in shippers && shippers[found.value].organization == organization
    ensures found.None? ==> forall s :: s in shippers ==> shippers[s].organization != organization
  {
    var ids := OrderById(set s | s in shippers && shippers[s].organization == organization);
    if ids != [] then assert ids[0] in ids; Some(ids[0])
    else
      assert forall s :: s in shippers && shippers[s].organization == organization ==> s in ids;
      None
  }

  /** The recipient organization of an organization; there is at most one. */
  function OrganizationFor(organizations: map<Id, RecipientOrganization>, organization: Id): (found: Option<Id>)
    ensures found.Some? ==> found.value in organizations && organizations[found.value].organization == organization
    ensures found.None? ==> forall o :: o in organizations ==> organizations[o].organization != organization
  {
    var ids := OrderById(set o | o in organizations && organizations[o].organization == organization);
    if ids != [] then assert ids[0] in ids; Some(ids[0])
    else
      assert forall o :: o in organizations && organizations[o].organization == organization ==> o in ids;
      None
  }

  // ---------------------------------------------------------------- save and delete

  datatype Refusal = Invalid | TypesDiffer | OrganizationsDiffer | DestinationsDiffer

  /** A save writes the row unless validation refuses it; a refusal aborts the merge. */
  datatype Saved = Refused(why: Refusal) | Done(tables: Tables)

  function SaveShipper(w: World, rules: Rules, id: Id, row: Shipper): Saved {
    if rules.shipper(w, id, row) then Done(w.tables.(shippers := w.tables.shippers[id := row])) else Refused(Invalid)
  }

  function SaveOrganization(w: World, rules: Rules, id: Id, row: RecipientOrganization): Saved {
    if rules.organization(w, id, row) then Done(w.tables.(organizations := w.tables.organizations[id := row]))
    else Refused(Invalid)
  }

  function SaveRecipient(w: World, rules: Rules, id: Id, row: RecipientContact): Saved {
    if rules.recipient(w, id, row) then Done(w.tables.(recipients := w.tables.recipients[id := row]))
    else Refused(Invalid)
  }

  function SaveLink(w: World, rules: Rules, id: Id, row: Link): Saved {
    if rules.link(w, id, row) then Done(w.tables.(links := w.tables.links[id := row])) else Refused(Invalid)
  }

  function SaveAuthorization(w: World, rules: Rules, id: Id, row: Authorization): Saved {
    if rules.authorization(w, id, row) then Done(w.tables.(authorizations := w.tables.authorizations[id := row]))
    else Refused(Invalid)
  }

  /** The authorizations that go with deleted links and recipient contacts. */
  function Dangling(auths: map<Id, Authorization>, links: set<Id>, recipients: set<Id>): set<Id> {
    set a | a in auths && (auths[a].link in links || auths[a].recipientContact in recipients)
  }

  function Cascade(t: Tables, links: set<Id>, recipients: set<Id>): Tables {
    var gone := Dangling(t.authorizations, links, recipients);
    t.(links := t.links - links, recipients := t.recipients - recipients,
       authorizations := t.authorizations - gone, cascaded := t.cascaded + |gone|)
  }

  function DeleteRecipient(t: Tables, id: Id): Tables {
    Cascade(t, {}, {id})
  }

  function DeleteLink(t: Tables, id: Id): Tables {
    Cascade(t, {id}, {})
  }

  function DeleteShipper(t: Tables, id: Id): Tables {
    var gone := set l | l in t.links && t.links[l].shipper == id;
    Cascade(t.(shippers := t.shippers - {id}, cascaded := t.cascaded + |gone|), gone, {})
  }

  function DeleteOrganization(t: Tables, id: Id): Tables {
    var goneLinks := set l | l in t.links && t.links[l].recipientOrganization == id;
    var goneRecipients := set c | c in t.recipients && t.recipients[c].recipientOrganization == id;
    Cascade(t.(organizations := t.organizations - {id}, cascaded := t.cascaded + |goneLinks| + |goneRecipients|),
      goneLinks, goneRecipients)
  }

  lemma NothingDangles(t: Tables, links: set<Id>, recipients: set<Id>)
    requires forall a :: a in t.authorizations ==>
      t.authorizations[a].link !in links && t.authorizations[a].recipientContact !in recipients
    ensures Cascade(t, links, recipients) == t.(links := t.links - links, recipients := t.recipients - recipients)
  {
    assert Dangling(t.authorizations, links, recipients) == {};
    assert t.authorizations - {} == t.authorizations;
  }

  // ---------------------------------------------------------------- what a delete takes along

  lemma RowsLess<Row>(rows: map<Id, Row>, gone: set<Id>)
    requires gone <= rows.Keys
    ensures |rows - gone| == |rows| - |gone|
  {
    assert (rows - gone).Keys == rows.Keys - gone;
    assert |rows - gone| == |(rows - gone).Keys| && |rows| == |rows.Keys|;
  }

  /** The authorizations of `after` are those of `before` whose link and recipient contact are left. */
  ghost predicate AuthorizationsLeft(before: Tables, after: Tables) {
    && (forall a :: a in after.authorizations <==>
          && a in before.authorizations && before.authorizations[a].link in after.links
          && before.authorizations[a].recipientContact in after.recipients)
    && (forall a :: a in after.authorizations ==> after.authorizations[a] == before.authorizations[a])
  }

  ghost function RowsOf(t: Tables): nat {
    |t.links| + |t.recipients| + |t.authorizations|
  }

  lemma CascadeTells(t: Tables, links: set<Id>, recipients: set<Id>)
    requires Resolved(t) && links <= t.links.Keys && recipients <= t.recipients.Keys
    ensures var after := Cascade(t, links, recipients);
      && AuthorizationsLeft(t, after) && after.links == t.links - links && after.recipients == t.recipients - recipients
      && RowsOf(after) + after.cascaded == RowsOf(t) + t.cascaded - |links| - |recipients|
  {
    RowsLess(t.links, links);
    RowsLess(t.recipients, recipients);
    RowsLess(t.authorizations, Dangling(t.authorizations, links, recipients));
  }

  /** A deleted link takes its authorizations along, and nothing else; whatever goes along is counted. */
  lemma LinkDeletionTells(t: Tables, id: Id)
    requires Resolved(t) && id in t.links
    ensures var after := DeleteLink(t, id);
      && AuthorizationsLeft(t, after) && after.links == t.links - {id} && after.recipients == t.recipients
      && RowsOf(after) + after.cascaded == RowsOf(t) + t.cascaded - 1
  {
    CascadeTells(t, {id}, {});
    assert t.recipients - {} == t.recipients;
  }

  lemma RecipientDeletionTells(t: Tables, id: Id)
    requires Resolved(t) && id in t.recipients
    ensures var after := DeleteRecipient(t, id);
      && AuthorizationsLeft(t, after) && after.recipients == t.recipients - {id} && after.links == t.links
      && RowsOf(after) + after.cascaded == RowsOf(t) + t.cascaded - 1
  {
    CascadeTells(t, {}, {id});
    assert t.links - {} == t.links;
  }

  /** A deleted shipper takes its links along, with their authorizations. */
  lemma ShipperDeletionTells(t: Tables, id: Id)
    requires Resolved(t)
    ensures var after := DeleteShipper(t, id);
      && AuthorizationsLeft(t, after) && after.shippers == t.shippers - {id} && after.recipients == t.recipients
      && (forall l :: l in after.links <==> l in t.links && t.links[l].shipper != id)
      && (forall l :: l in after.links ==> after.links[l] == t.links[l])
      && RowsOf(after) + after.cascaded == RowsOf(t) + t.cascaded
  {
    var gone := set l | l in t.links && t.links[l].shipper == id;
    CascadeTells(t, gone, {});
    assert t.recipients - {} == t.recipients;
  }

  /** A deleted recipient organization takes its links and its recipient contacts along, with their authorizations. */
  lemma OrganizationDeletionTells(t: Tables, id: Id)
    requires Resolved(t)
    ensures var after := DeleteOrganization(t, id);
      && AuthorizationsLeft(t, after) && after.organizations == t.organizations - {id}
      && (forall l :: l in after.links <==> l in t.links && t.links[l].recipientOrganization != id)
      && (forall c :: c in after.recipients <==> c in t.recipients && t.recipients[c].recipientOrganization != id)
      && RowsOf(after) + after.cascaded == RowsOf(t) + t.cascaded
  {
    var goneLinks := set l | l in t.links && t.links[l].recipientOrganization == id;
    var goneRecipients := set c | c in t.recipients && t.recipients[c].recipientOrganization == id;
    CascadeTells(t, goneLinks, goneRecipients);
  }

  lemma LinkDropped(t: Tables, n: Labels, l: Id, twin: Id, r: Renaming) returns (n': Labels)
    requires Coherent(t, n, r) && l in t.links && twin in t.links && l != twin && n.links[l] == n.links[twin]
    requires forall a :: a in t.authorizations ==> t.authorizations[a].link != l
    ensures DeleteLink(t, l) == t.(links := t.links - {l}) && Coherent(DeleteLink(t, l), n', r)
    ensures n' == n.(links := n.links - {l}) && Keeps(ViewOf(n), ViewOf(n'))
  {
    NothingDangles(t, {l}, {});
    assert t.recipients - {} == t.recipients;
    n' := LinkDeleted(t, n, l, twin, r);
  }

  lemma RecipientDropped(t: Tables, n: Labels, c: Id, twin: Id, r: Renaming) returns (n': Labels)
    requires Coherent(t, n, r) && c in t.recipients && twin in t.recipients && c != twin
    requires n.recipients[c] == n.recipients[twin]
    requires forall a :: a in t.authorizations ==> t.authorizations[a].recipientContact != c
    ensures DeleteRecipient(t, c) == t.(recipients := t.recipients - {c}) && Coherent(DeleteRecipient(t, c), n', r)
    ensures n' == n.(recipients := n.recipients - {c}) && Keeps(ViewOf(n), ViewOf(n'))
  {
    NothingDangles(t, {}, {c});
    assert t.links - {} == t.links;
    n' := RecipientDeleted(t, n, c, twin, r);
  }

  lemma ShipperDropped(t: Tables, n: Labels, s: Id, twin: Id, r: Renaming) returns (n': Labels)
    requires Coherent(t, n, r) && s in t.shippers && twin in t.shippers && s != twin
    requires n.shippers[s] == n.shippers[twin]
    requires forall l :: l in t.links ==> t.links[l].shipper != s
    ensures DeleteShipper(t, s) == t.(shippers := t.shippers - {s}) && Coherent(DeleteShipper(t, s), n', r)
    ensures n' == n.(shippers := n.shippers - {s}) && Keeps(ViewOf(n), ViewOf(n'))
  {
    var t' := t.(shippers := t.shippers - {s});
    assert (set l | l in t.links && t.links[l].shipper == s) == {};
    NothingDangles(t', {}, {});
    assert t.links - {} == t.links && t.recipients - {} == t.recipients;
    n' := ShipperDeleted(t, n, s, twin, r);
  }

  lemma OrganizationDropped(t: Tables, n: Labels, o: Id, twin: Id, r: Renaming) returns (n': Labels)
    requires Coherent(t, n, r) && o in t.organizations && twin in t.organizations && o != twin
    requires n.organizations[o] == n.organizations[twin]
    requires forall l :: l in t.links ==> t.links[l].recipientOrganization != o
    requires forall c :: c in t.recipients ==> t.recipients[c].recipientOrganization != o
    ensures DeleteOrganization(t, o) == t.(organizations := t.organizations - {o})
    ensures Coherent(DeleteOrganization(t, o), n', r)
    ensures n' == n.(organizations := n.organizations - {o}) && Keeps(ViewOf(n), ViewOf(n'))
  {
    var t' := t.(organizations := t.organizations - {o});
    assert (set l | l in t.links && t.links[l].recipientOrganization == o) == {};
    assert (set c | c in t.recipients && t.recipients[c].recipientOrganization == o) == {};
    NothingDangles(t', {}, {});
    assert t.links - {} == t.links && t.recipients - {} == t.recipients;
    n' := OrganizationDeleted(t, n, o, twin, r);
  }

  // ---------------------------------------------------------------- the models' constraints

  ghost predicate ActiveDefault(auths: map<Id, Authorization>, e: Id, link: Id) {
    e in auths && auths[e].link == link && auths[e].isDefault && auths[e].active
  }

  /** As an active default of the link, the authorization would not be the only one. */
  ghost predicate SecondDefault(auths: map<Id, Authorization>, a: Id, link: Id) {
    a in auths && auths[a].isDefault && auths[a].active && exists e :: e != a && ActiveDefault(auths, e, link)
  }

  /** Saved under this key, the row would be a second active default of its link. */
  ghost predicate IsSecondDefault(auths: map<Id, Authorization>, k: Id, row: Authorization) {
    row.isDefault && row.active && exists e :: e != k && ActiveDefault(auths, e, row.link)
  }

  /** The recipient contact belongs to the link's own recipient organization. */
  ghost predicate FitsAt(t: Tables, l: Id, c: Id) {
    l in t.links && c in t.recipients && t.recipients[c].recipientOrganization == t.links[l].recipientOrganization
  }

  ghost predicate ActiveCorrespondent(organizations: map<Id, RecipientOrganization>, o: Id, destination: Id) {
    && o in organizations && organizations[o].isCorrespondent && organizations[o].active
    && organizations[o].destination == destination
  }

  /** Saved under this key, the row would be a second active correspondent of its destination. */
  ghost predicate IsSecondCorrespondent(
    organizations: map<Id, RecipientOrganization>, k: Id, row: RecipientOrganization)
  {
    row.isCorrespondent && row.active && exists o :: o != k && ActiveCorrespondent(organizations, o, row.destination)
  }

  /** The validation refuses a second active default for a link, as the models' constraint does. */
  ghost predicate OneActiveDefault(rules: Rules) {
    forall w, k, row :: rules.authorization(w, k, row) ==> !IsSecondDefault(w.tables.authorizations, k, row)
  }

  /** The validation refuses contacts of another organization than the link's, as the models' does. */
  ghost predicate OwnOrganizationOnly(rules: Rules) {
    forall w, k, row :: rules.authorization(w, k, row) ==> FitsAt(w.tables, row.link, row.recipientContact)
  }

  /** The validation refuses a second active correspondent of a destination, as the models' constraint does. */
  ghost predicate OneActiveCorrespondent(rules: Rules) {
    forall w, k, row :: rules.organization(w, k, row) ==> !IsSecondCorrespondent(w.tables.organizations, k, row)
  }

  /** The validation refuses nothing for any other reason than these three. */
  ghost predicate OnlyConstraints(rules: Rules) {
    && (forall w, k, row :: rules.shipper(w, k, row))
    && (forall w, k, row :: rules.recipient(w, k, row))
    && (forall w, k, row :: rules.link(w, k, row))
    && (forall w, k, row | !rules.organization(w, k, row) :: IsSecondCorrespondent(w.tables.organizations, k, row))
    && (forall w, k, row | !rules.authorization(w, k, row) ::
          || IsSecondDefault(w.tables.authorizations, k, row)
          || !FitsAt(w.tables, row.link, row.recipientContact))
  }

  /** A second default is no reason for a refusal. */
  ghost predicate IgnoresDefaults(rules: Rules) {
    forall w, k, row :: !rules.authorization(w, k, row) ==> !FitsAt(w.tables, row.link, row.recipientContact)
  }

  /** A contact of another organization is no reason for a refusal. */
  ghost predicate IgnoresContacts(rules: Rules) {
    forall w, k, row :: !rules.authorization(w, k, row) ==> IsSecondDefault(w.tables.authorizations, k, row)
  }

  /** A second correspondent is no reason for a refusal. */
  ghost predicate IgnoresCorrespondents(rules: Rules) {
    forall w, k, row :: rules.organization(w, k, row)
  }

  /** Which of the three constraints a validation enforces. */
  datatype Constraints = Constraints(defaults: bool, contacts: bool, correspondents: bool)

  /** The validation enforces these constraints and nothing else. */
  ghost predicate Enforces(rules: Rules, c: Constraints) {
    && (forall w, k, row :: rules.shipper(w, k, row))
    && (forall w, k, row :: rules.recipient(w, k, row))
    && (forall w, k, row :: rules.link(w, k, row))
    && (forall w, k, row :: rules.organization(w, k, row)
          <==> !(c.correspondents && IsSecondCorrespondent(w.tables.organizations, k, row)))
    && (forall w, k, row :: rules.authorization(w, k, row)
          <==> !(c.defaults && IsSecondDefault(w.tables.authorizations, k, row))
               && (c.contacts ==> FitsAt(w.tables, row.link, row.recipientContact)))
  }

  lemma EnforcesParts(rules: Rules, c: Constraints)
    requires Enforces(rules, c)
    ensures OnlyConstraints(rules)
    ensures if c.defaults then OneActiveDefault(rules) else IgnoresDefaults(rules)
    ensures if c.contacts then OwnOrganizationOnly(rules) else IgnoresContacts(rules)
    ensures if c.correspondents then OneActiveCorrespondent(rules) else IgnoresCorrespondents(rules)
  {
  }

  /** How a part of the merge ends when `inTheWay` says which constraints its rows would violate: it is done only if the
      validation does not enforce one of these, and refused only for one of these, at least where authorizations name
      contacts of their links' organizations (`owned`). Folded like `Coherent`. */
  ghost predicate Decides(rules: Rules, owned: bool, done: bool, inTheWay: Constraints) {
    forall u :: Unfold(u) ==>
      && (done ==>
            && !(OneActiveDefault(rules) && owned && inTheWay.defaults)
            && !(OwnOrganizationOnly(rules) && inTheWay.contacts)
            && !(OneActiveCorrespondent(rules) && inTheWay.correspondents))
      && (!done && owned && OnlyConstraints(rules) ==>
            || (!IgnoresDefaults(rules) && (OneActiveDefault(rules) ==> inTheWay.defaults))
            || (!IgnoresContacts(rules) && inTheWay.contacts)
            || (!IgnoresCorrespondents(rules) && inTheWay.correspondents))
  }

  /** Some constraint that is enforced is in the way. */
  predicate Forbidden(enforced: Constraints, inTheWay: Constraints) {
    || (enforced.defaults && inTheWay.defaults) || (enforced.contacts && inTheWay.contacts)
    || (enforced.correspondents && inTheWay.correspondents)
  }

  /** A validation that enforces some of the constraints refuses exactly what these forbid. */
  lemma DecidedExactly(rules: Rules, enforced: Constraints, done: bool, inTheWay: Constraints)
    requires Decides(rules, true, done, inTheWay) && Enforces(rules, enforced)
    ensures done <==> !Forbidden(enforced, inTheWay)
  {
    assert Unfold(0);
    EnforcesParts(rules, enforced);
  }

  /** A validation that refuses nothing enforces no constraint. */
  lemma PermissiveEnforcesNone(rules: Rules)
    ensures Permissive(rules) <==> Enforces(rules, Constraints(false, false, false))
  {
  }

  /** Once the others are cleared, or if there were none, the kept default is the only one of its link. */
  lemma KeptIsOnlyDefault(auths: map<Id, Authorization>, e: Id, clearing: bool, row: Authorization)
    requires e in auths && OneDefaultPerLink(auths) && row.link == auths[e].link
    requires row.isDefault ==> clearing || auths[e].isDefault
    ensures !IsSecondDefault(if clearing then ClearOthers(auths, auths[e].link, e) else auths, e, row)
  {
    if !clearing && auths[e].isDefault {
      forall x | x != e ensures !ActiveDefault(auths, x, auths[e].link) {
        assert !BothDefault(auths, x, e);
      }
    }
  }

  /** A row that is no second default is refused for its contact only. */
  lemma RefusedForContact(t: Tables, w: World, rules: Rules, k: Id, row: Authorization)
    requires w.tables.links == t.links && w.tables.recipients == t.recipients
    requires !rules.authorization(w, k, row) && !IsSecondDefault(w.tables.authorizations, k, row)
    ensures !IgnoresContacts(rules)
    ensures OnlyConstraints(rules) || IgnoresDefaults(rules) ==> !FitsAt(t, row.link, row.recipientContact)
  {
  }

  // ---------------------------------------------------------------- folding authorizations

  /** An authorization takes a free slot; if it is a default the other default of that link is cleared. */
  method MoveAuthorization(w: World, rules: Rules, a: Id, link: Id, recipient: Id) returns (saved: Saved)
    requires a in w.tables.authorizations
    ensures saved.Done? ==>
      saved.tables == w.tables.(authorizations := Moved(w.tables.authorizations, a, link, recipient))
    ensures Permissive(rules) ==> saved.Done?
    ensures OwnOrganizationOnly(rules) && saved.Done? ==> FitsAt(w.tables, link, recipient)
    ensures OneActiveDefault(rules) && SecondDefault(w.tables.authorizations, a, link) ==> saved.Refused?
    ensures saved.Refused? && OnlyConstraints(rules) ==>
      SecondDefault(w.tables.authorizations, a, link) || !FitsAt(w.tables, link, recipient)
    ensures saved.Refused? && IgnoresContacts(rules) ==> SecondDefault(w.tables.authorizations, a, link)
    ensures saved.Refused? && IgnoresDefaults(rules) ==> !FitsAt(w.tables, link, recipient)
    ensures saved.Refused? ==> saved.why == Invalid
  {
    var row := w.tables.authorizations[a];
    saved := SaveAuthorization(w, rules, a, row.(link := link, recipientContact := recipient));
    if saved.Done? && row.isDefault {
      saved := Done(saved.tables.(authorizations := ClearOthers(saved.tables.authorizations, link, a)));
    }
  }

  /** What the save leaves before the other authorization is deleted. */
  lemma AbsorbedInPlace(auths: map<Id, Authorization>, a: Id, e: Id, left: map<Id, Authorization>)
    requires a in auths && e in auths && a != e
    requires var row, existing := auths[a], auths[e];
      var activates, becomesDefault := row.active && !existing.active, row.isDefault && !existing.isDefault;
      var cleared := if becomesDefault then ClearOthers(auths, existing.link, e) else auths;
      left == if activates || becomesDefault
        then cleared[e :=
          existing.(active := existing.active || activates, isDefault := existing.isDefault || becomesDefault)]
        else cleared
    ensures left - {a} == Absorbed(auths, a, e)
  {
  }

  /** The slot is taken: its authorization takes over the flags, and the other one is deleted. */
  method AbsorbAuthorization(w: World, rules: Rules, a: Id, e: Id) returns (saved: Saved)
    requires a in w.tables.authorizations && e in w.tables.authorizations && a != e
    ensures saved.Done? ==> saved.tables == w.tables.(authorizations := Absorbed(w.tables.authorizations, a, e))
    ensures Permissive(rules) ==> saved.Done?
    ensures IgnoresContacts(rules) && OneDefaultPerLink(w.tables.authorizations) ==> saved.Done?
    ensures saved.Refused? && OneDefaultPerLink(w.tables.authorizations)
      && (OnlyConstraints(rules) || IgnoresDefaults(rules))
      ==> !FitsAt(w.tables, w.tables.authorizations[e].link, w.tables.authorizations[e].recipientContact)
    ensures saved.Refused? ==> saved.why == Invalid
  {
    var auths := w.tables.authorizations;
    var row, existing := auths[a], auths[e];
    var activates := row.active && !existing.active;
    var becomesDefault := row.isDefault && !existing.isDefault;
    var left := w.tables;
    if becomesDefault {
      left := left.(authorizations := ClearOthers(auths, existing.link, e));
    }
    if activates || becomesDefault {
      var kept :=
        existing.(active := existing.active || activates, isDefault := existing.isDefault || becomesDefault);
      saved := SaveAuthorization(w.(tables := left), rules, e, kept);
      if saved.Refused? {
        if OneDefaultPerLink(auths) {
          KeptIsOnlyDefault(auths, e, becomesDefault, kept);
          RefusedForContact(w.tables, w.(tables := left), rules, e, kept);
        }
        return;
      }
      left := saved.tables;
    }
    AbsorbedInPlace(auths, a, e, left.authorizations);
    saved := Done(left.(authorizations := left.authorizations - {a}));
  }

  /** The body both authorization loops share: the authorization goes to the slot (link, recipient contact),
      or is folded into the authorization that holds it. */
  method FoldAuthorization(w: World, rules: Rules, a: Id, link: Id, recipient: Id) returns (saved: Saved)
    requires a in w.tables.authorizations
    requires !(w.tables.authorizations[a].link == link && w.tables.authorizations[a].recipientContact == recipient)
    ensures saved.Done? ==> saved.tables == w.tables.(authorizations := saved.tables.authorizations)
    ensures saved.Done? ==> Folded(w.tables.authorizations, saved.tables.authorizations, a, link, recipient)
    ensures Permissive(rules) ==> saved.Done?
    ensures SlotFree(w.tables.authorizations, link, recipient) && OwnOrganizationOnly(rules) && saved.Done?
      ==> FitsAt(w.tables, link, recipient)
    ensures SlotFree(w.tables.authorizations, link, recipient) && OneActiveDefault(rules)
      ==> SecondDefault(w.tables.authorizations, a, link) ==> saved.Refused?
    ensures saved.Refused? && OneDefaultPerLink(w.tables.authorizations)
      ==> RefusedFold(w.tables, rules, a, link, recipient)
    ensures saved.Refused? ==> saved.why == Invalid
  {
    var auths := w.tables.authorizations;
    var held := set e | e in auths && auths[e].link == link && auths[e].recipientContact == recipient;
    assert SlotFree(auths, link, recipient) <==> held == {} by {
      assert forall e :: e in auths && auths[e].link == link && auths[e].recipientContact == recipient ==> e in held;
    }
    if held == {} {
      saved := MoveAuthorization(w, rules, a, link, recipient);
    } else {
      var e :| e in held;
      assert Holds(auths, a, e, link, recipient);
      saved := AbsorbAuthorization(w, rules, a, e);
    }
  }

  /** Why folding `a` into a slot was refused, by a validation that only knows the constraints. */
  ghost predicate RefusedFold(t: Tables, rules: Rules, a: Id, link: Id, recipient: Id) {
    var second := SlotFree(t.authorizations, link, recipient) && SecondDefault(t.authorizations, a, link);
    && (OnlyConstraints(rules) ==> second || !FitsAt(t, link, recipient))
    && (IgnoresContacts(rules) ==> second)
    && (IgnoresDefaults(rules) ==> !FitsAt(t, link, recipient))
  }

  /** The outcome of folding `a` into a slot. */
  ghost predicate Folded(before: map<Id, Authorization>, after: map<Id, Authorization>, a: Id, link: Id, recipient: Id)
    requires a in before
  {
    forall k :: Unfold(k) ==>
      if SlotFree(before, link, recipient) then after == Moved(before, a, link, recipient)
      else exists e :: Holds(before, a, e, link, recipient) && after == Absorbed(before, a, e)
  }

  /** Another authorization has the slot. */
  ghost predicate Holds(auths: map<Id, Authorization>, a: Id, e: Id, link: Id, recipient: Id) {
    e in auths && e != a && auths[e].link == link && auths[e].recipientContact == recipient
  }

  lemma CoherentUnique(t: Tables, n: Labels, r: Renaming)
    requires Coherent(t, n, r)
    ensures Unique(t)
  {
    assert Unfold(0);
  }

  lemma FoldKeeps(
    t: Tables, after: map<Id, Authorization>, n: Labels, a: Id, link: Id, recipient: Id, r: Renaming)
    returns (n': Labels)
    requires Coherent(t, n, r) && a in t.authorizations && link in t.links && recipient in t.recipients
    requires n.links[link] == n.links[t.authorizations[a].link]
    requires n.recipients[recipient] == n.recipients[t.authorizations[a].recipientContact]
    requires Folded(t.authorizations, after, a, link, recipient)
    ensures Coherent(t.(authorizations := after), n', r)
    ensures n' == n.(grants := n'.grants) && Keeps(ViewOf(n), ViewOf(n'))
  {
    assert Unfold(0);
    if SlotFree(t.authorizations, link, recipient) {
      n' := MovedKeeps(t, n, a, link, recipient, r);
    } else {
      var e :| Holds(t.authorizations, a, e, link, recipient) && after == Absorbed(t.authorizations, a, e);
      n' := AbsorbedKeeps(t, n, a, e, r);
    }
  }
}
