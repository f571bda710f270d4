/** Making the correspondents of destinations ready as recipients (contacts/correspondent_recipient_promotion.py).

    A pass reads the correspondents once and then works from these readings, while it changes contacts and
    recipient organizations. */
module CorrespondentPromotion {
  import opened Ids
  import opened ContactBook
  import opened RegistryTables
  import opened RegistryWrites
  import Text

  type Organizations = map<Id, RecipientOrganization>
  type Destinations = map<Id, Destination>

  /** `full_clean` of a recipient organization row. */
  type Check = (Contacts, Organizations, Id, RecipientOrganization) -> bool

  // ---------------------------------------------------------------- one organization, some destinations

  /** What a promotion reports of the rows; a refused save aborts it. */
  datatype Promotion = Denied | Promoted(rows: Organizations, created: bool, reactivated: bool)

  function ReadyRow(row: RecipientOrganization): RecipientOrganization {
    row.(status := Validated, isCorrespondent := true, active := true)
  }

  /** The body of the loop over the destinations of a correspondent. */
  function PromoteAt(contacts: Contacts, rows: Organizations, organization: Id, d: Id, check: Check): Promotion {
    match OrganizationFor(rows, organization)
    case None =>
      var id, row := FreshId(rows.Keys), RecipientOrganization(organization, d, Validated, true, true);
      if check(contacts, rows, id, row) then Promoted(rows[id := row], true, false) else Denied
    case Some(id) =>
      var row := rows[id];
      var after :=
        if row.destination == d then ReadyRow(row)
        else if !row.active then ReadyRow(row.(destination := d))
        else row;
      if after == row then Promoted(rows, false, false)
      else if check(contacts, rows, id, after) then Promoted(rows[id := after], false, !row.active)
      else Denied
  }

  function PromoteAll(contacts: Contacts, rows: Organizations, organization: Id, ds: seq<Id>, check: Check): Promotion
    decreases |ds|
  {
    if ds == [] then Promoted(rows, false, false)
    else
      match PromoteAt(contacts, rows, organization, ds[0], check)
      case Denied => Denied
      case Promoted(rows1, created, reactivated) =>
        match PromoteAll(contacts, rows1, organization, ds[1..], check)
        case Denied => Denied
        case Promoted(rows2, created', reactivated') =>
          Promoted(rows2, created || created', reactivated || reactivated')
  }

  ghost predicate IsReady(row: RecipientOrganization) {
    row.status.Validated? && row.isCorrespondent && row.active
  }

  ghost predicate HasActiveRow(rows: Organizations, organization: Id) {
    exists id :: id in rows && rows[id].organization == organization && rows[id].active
  }

  /** Nothing is left to do for the organization at these destinations. */
  ghost predicate Finished(rows: Organizations, organization: Id, ds: set<Id>) {
    && HasActiveRow(rows, organization)
    && (forall id :: id in rows && rows[id].organization == organization ==>
          rows[id].active && (rows[id].destination in ds ==> IsReady(rows[id])))
  }

  /** Rows keep their organization; an active row stays active, stays at its destination and stays ready. */
  ghost predicate RowsKept(before: Organizations, after: Organizations) {
    forall id :: id in before ==>
      && id in after && after[id].organization == before[id].organization
      && (before[id].active ==> after[id].active && after[id].destination == before[id].destination)
      && (IsReady(before[id]) ==> after[id] == before[id])
  }

  lemma PromotedAt(contacts: Contacts, rows: Organizations, organization: Id, d: Id, check: Check)
    requires UniqueOrganizations(rows) && PromoteAt(contacts, rows, organization, d, check).Promoted?
    ensures var after := PromoteAt(contacts, rows, organization, d, check).rows;
      UniqueOrganizations(after) && RowsKept(rows, after) && Finished(after, organization, {d})
  {
    var after := PromoteAt(contacts, rows, organization, d, check).rows;
    assert forall x, y :: SameOrganization(after, x, y) ==> x == y || SameOrganization(rows, x, y);
    var found := OrganizationFor(rows, organization);
    var own := if found.None? then FreshId(rows.Keys) else found.value;
    assert own in after && after[own].organization == organization && after[own].active;
    forall id | id in after && after[id].organization == organization ensures id == own {
      assert SameOrganization(after, id, own);
    }
  }

  lemma FinishedStays(before: Organizations, after: Organizations, organization: Id, ds: set<Id>)
    requires UniqueOrganizations(after) && RowsKept(before, after) && Finished(before, organization, ds)
    ensures Finished(after, organization, ds)
  {
    var own :| own in before && before[own].organization == organization && before[own].active;
    forall id | id in after && after[id].organization == organization ensures id == own {
      assert SameOrganization(after, id, own);
    }
  }

  lemma KeptTransitive(before: Organizations, between: Organizations, after: Organizations)
    requires RowsKept(before, between) && RowsKept(between, after)
    ensures RowsKept(before, after)
  {
  }

  function Elements(ids: seq<Id>): set<Id> {
    set x | x in ids
  }

  lemma {:induction false} PromotedAll(
    contacts: Contacts, rows: Organizations, organization: Id, ds: seq<Id>, check: Check)
    requires UniqueOrganizations(rows) && PromoteAll(contacts, rows, organization, ds, check).Promoted?
    ensures var after := PromoteAll(contacts, rows, organization, ds, check).rows;
      UniqueOrganizations(after) && RowsKept(rows, after) && (ds != [] ==> Finished(after, organization, Elements(ds)))
    decreases |ds|
  {
    if ds != [] {
      var rows1 := PromoteAt(contacts, rows, organization, ds[0], check).rows;
      PromotedAt(contacts, rows, organization, ds[0], check);
      PromotedAll(contacts, rows1, organization, ds[1..], check);
      var after := PromoteAll(contacts, rows1, organization, ds[1..], check).rows;
      KeptTransitive(rows, rows1, after);
      FinishedStays(rows1, after, organization, {ds[0]});
      assert Elements(ds) == {ds[0]} + Elements(ds[1..]);
      FinishedJoins(after, organization, {ds[0]}, Elements(ds[1..]));
    }
  }

  lemma FinishedJoins(rows: Organizations, organization: Id, ds: set<Id>, more: set<Id>)
    requires Finished(rows, organization, ds) && (more != {} ==> Finished(rows, organization, more))
    ensures Finished(rows, organization, ds + more)
  {
  }

  /** A finished organization is left alone. */
  lemma {:induction false} FinishedIsIdle(
    contacts: Contacts, rows: Organizations, organization: Id, ds: seq<Id>, check: Check)
    requires Finished(rows, organization, Elements(ds))
    ensures PromoteAll(contacts, rows, organization, ds, check) == Promoted(rows, false, false)
    decreases |ds|
  {
    if ds != [] {
      assert ds[0] in Elements(ds);
      assert forall x :: x in Elements(ds[1..]) ==> x in Elements(ds);
      FinishedIsIdle(contacts, rows, organization, ds[1..], check);
    }
  }

  /** With an active row nothing is created and nothing is reactivated. */
  lemma {:induction false} ActiveRowReportsNothing(
    contacts: Contacts, rows: Organizations, organization: Id, ds: seq<Id>, check: Check)
    requires UniqueOrganizations(rows) && HasActiveRow(rows, organization)
    ensures var p := PromoteAll(contacts, rows, organization, ds, check); p.Promoted? ==> !p.created && !p.reactivated
    decreases |ds|
  {
    var own :| own in rows && rows[own].organization == organization && rows[own].active;
    assert SameOrganization(rows, own, OrganizationFor(rows, organization).value);
    if ds != [] && PromoteAt(contacts, rows, organization, ds[0], check).Promoted? {
      PromotedAt(contacts, rows, organization, ds[0], check);
      ActiveRowReportsNothing(
        contacts, PromoteAt(contacts, rows, organization, ds[0], check).rows, organization, ds[1..], check);
    }
  }

  /** What is reported: a row is created exactly when the organization had none, and reactivated exactly when the one
      it had was inactive. */
  lemma {:induction false} ReportsTell(
    contacts: Contacts, rows: Organizations, organization: Id, ds: seq<Id>, check: Check)
    requires UniqueOrganizations(rows) && ds != [] && PromoteAll(contacts, rows, organization, ds, check).Promoted?
    ensures
      var p, found := PromoteAll(contacts, rows, organization, ds, check), OrganizationFor(rows, organization);
      && (p.created <==> found.None?)
      && (p.reactivated <==> found.Some? && !rows[found.value].active)
  {
    var first := PromoteAt(contacts, rows, organization, ds[0], check);
    PromotedAt(contacts, rows, organization, ds[0], check);
    ActiveRowReportsNothing(contacts, first.rows, organization, ds[1..], check);
    var found := OrganizationFor(rows, organization);
    assert first.created <==> found.None?;
    if found.Some? && rows[found.value].active {
      ActiveRowReportsNothing(contacts, rows, organization, ds, check);
    }
  }

  // ---------------------------------------------------------------- the organization of a correspondent

  const SUPPORT_NAME := "ASF - CORRESPONDANT"
  const MARKER := "[system] " + "correspondent recipient support " + "organization"

  predicate Contains(s: string, part: string) {
    part <= s || (s != [] && Contains(s[1..], part))
  }

  predicate IsSupport(c: Contact) {
    c.kind.Organization? && Text.Upper(c.name) == Text.Upper(SUPPORT_NAME)
  }

  /** Active contacts first, then by key. */
  function ActiveFirst(contacts: Contacts): (Id, Id) -> bool {
    (x: Id, y: Id) =>
      x in contacts && y in contacts
      && (if contacts[x].active == contacts[y].active then x < y else contacts[x].active)
  }

  /** `_existing_support_organization` */
  function ExistingSupport(contacts: Contacts): (found: Option<Id>)
    ensures found.Some? ==> found.value in contacts && contacts[found.value].kind.Organization?
  {
    var supports := set c | c in contacts && IsSupport(contacts[c]);
    if supports == {} then None else Some(Least(ActiveFirst(contacts), supports))
  }

  /** The marker is added on a line of its own, unless the notes contain it. */
  function Marked(notes: string, marker: string): string {
    var stripped := Text.Strip(notes);
    if Contains(stripped, marker) then notes
    else if stripped == "" then marker
    else Text.Strip(stripped + "\n" + marker)
  }

  function MarkedTexts(texts: map<Field, string>): map<Field, string> {
    var notes := if Notes in texts then texts[Notes] else "";
    if Contains(Text.Strip(notes), MARKER) then texts else texts[Notes := Marked(notes, MARKER)]
  }

  /** The support organization is an active one if there is one, and the oldest of these. */
  lemma SupportChosen(contacts: Contacts, c: Id)
    requires c in contacts && IsSupport(contacts[c])
    ensures var found := ExistingSupport(contacts);
      && found.Some? && IsSupport(contacts[found.value])
      && (contacts[c].active ==> contacts[found.value].active)
      && (contacts[c].active == contacts[found.value].active ==> found.value <= c)
  {
    var supports := set x | x in contacts && IsSupport(contacts[x]);
    assert c in supports;
    assert IsLeast(ActiveFirst(contacts), supports, ExistingSupport(contacts).value);
  }

  lemma {:induction false} ContainsEnd(s: string, part: string)
    ensures Contains(s + part, part)
  {
    if s == "" {
      assert s + part == part;
    } else {
      assert (s + part)[1..] == s[1..] + part;
      ContainsEnd(s[1..], part);
    }
  }

  /** Marked notes contain the marker, so marking them again changes nothing. */
  lemma MarkedOnce(notes: string, marker: string)
    requires marker != "" && Text.Trimmed(marker)
    ensures Contains(Text.Strip(Marked(notes, marker)), marker)
    ensures Marked(Marked(notes, marker), marker) == Marked(notes, marker)
  {
    var stripped := Text.Strip(notes);
    Text.StripTrims(notes);
    if !Contains(stripped, marker) {
      var front := if stripped == "" then "" else stripped + "\n";
      var whole := front + marker;
      assert whole[|whole| - 1] == marker[|marker| - 1];
      assert whole[0] == (if stripped == "" then marker[0] else stripped[0]);
      Text.StripTrims(whole);
      ContainsEnd(front, marker);
      assert stripped != "" ==> whole == stripped + "\n" + marker;
      assert stripped == "" ==> whole == marker;
    }
  }

  datatype Resolution = Resolution(contacts: Contacts, organization: Id, supportCreated: bool, attached: bool)

  /** `_get_or_create_support_organization` */
  function WithSupport(contacts: Contacts): (r: Resolution)
    ensures r.contacts.Keys == contacts.Keys + {r.organization}
    ensures r.contacts[r.organization].kind.Organization? && r.contacts[r.organization].active
    ensures r.organization in contacts ==> contacts[r.organization].kind.Organization?
    ensures forall c :: c in contacts && c != r.organization ==> r.contacts[c] == contacts[c]
  {
    match ExistingSupport(contacts)
    case None =>
      var id := FreshId(contacts.Keys);
      Resolution(contacts[id := Contact(Organization, SUPPORT_NAME, None, false, true, map[Notes := MARKER])], id,
        true, false)
    case Some(id) =>
      Resolution(contacts[id := contacts[id].(active := true, texts := MarkedTexts(contacts[id].texts))], id,
        false, false)
  }

  /** The contact has an organization of its own. */
  predicate Placed(contacts: Contacts, read: Contact) {
    && read.organization.Some? && read.organization.value in contacts
    && contacts[read.organization.value].kind.Organization?
  }

  /** `_resolve_recipient_organization`, for the contact `k` as it was read. */
  function Resolve(contacts: Contacts, k: Id, read: Contact): (r: Resolution)
    requires k in contacts
  {
    if read.kind.Organization? then Resolution(contacts, k, false, false)
    else if Placed(contacts, read) then
      var o := read.organization.value;
      Resolution(contacts[o := contacts[o].(active := true)], o, false, false)
    else
      var support := WithSupport(contacts);
      if read.organization == Some(support.organization) then support
      else support.(contacts := support.contacts[k := support.contacts[k].(organization := Some(support.organization))],
        attached := true)
  }

  // ---------------------------------------------------------------- one contact, one pass

  function DestinationsOf(destinations: Destinations, k: Id): seq<Id> {
    OrderById(set d | d in destinations && destinations[d].active && destinations[d].correspondent == k)
  }

  function Correspondents(destinations: Destinations): seq<Id> {
    OrderById(set d | d in destinations && destinations[d].active :: destinations[d].correspondent)
  }

  datatype State = State(contacts: Contacts, rows: Organizations)

  datatype Report = Report(supportCreated: bool, attached: bool, created: bool, reactivated: bool) {
    predicate Changed() {
      supportCreated || attached || created || reactivated
    }
  }

  const NOTHING := Report(false, false, false, false)

  datatype Summary = Summary(processed: nat, changed: nat, supportCreated: nat, attached: nat, created: nat,
    reactivated: nat) {
    function Add(r: Report): Summary {
      Summary(processed + 1,
              changed + if r.Changed() then 1 else 0,
              supportCreated + if r.supportCreated then 1 else 0,
              attached + if r.attached then 1 else 0,
              created + if r.created then 1 else 0,
              reactivated + if r.reactivated then 1 else 0)
    }
  }

  const NONE := Summary(0, 0, 0, 0, 0, 0)

  datatype Outcome = Stopped | Went(state: State, report: Report)

  datatype Passed = Aborted | Completed(state: State, summary: Summary)

  /** `promote_correspondent_to_recipient_ready`, for the contact as it was read. */
  function PromoteContact(s: State, k: Id, read: Contact, destinations: Destinations, check: Check): Outcome
    requires k in s.contacts
  {
    var ds := DestinationsOf(destinations, k);
    if !read.active || ds == [] then Went(s, NOTHING)
    else
      var r := Resolve(s.contacts, k, read);
      match PromoteAll(r.contacts, s.rows, r.organization, ds, check)
      case Denied => Stopped
      case Promoted(rows, created, reactivated) =>
        Went(State(r.contacts, rows), Report(r.supportCreated, r.attached, created, reactivated))
  }

  /** The rest of a pass over contacts that were all read at its start. */
  function PassFrom(
    s: State, ks: seq<Id>, read: Contacts, sum: Summary, destinations: Destinations, check: Check): Passed
    requires forall k :: k in ks ==> k in read
    requires read.Keys <= s.contacts.Keys
    decreases |ks|
  {
    if ks == [] then Completed(s, sum)
    else
      assert ks[0] in ks;
      match PromoteContact(s, ks[0], read[ks[0]], destinations, check)
      case Stopped => Aborted
      case Went(state, report) => PassFrom(state, ks[1..], read, sum.Add(report), destinations, check)
  }

  lemma ContactsGrow(s: State, k: Id, read: Contact, destinations: Destinations, check: Check)
    requires k in s.contacts && PromoteContact(s, k, read, destinations, check).Went?
    ensures s.contacts.Keys <= PromoteContact(s, k, read, destinations, check).state.contacts.Keys
  {
  }

  predicate WellFormed(s: State, destinations: Destinations) {
    forall d :: d in destinations ==> destinations[d].correspondent in s.contacts
  }

  lemma CorrespondentsExist(s: State, destinations: Destinations)
    requires WellFormed(s, destinations)
    ensures forall k :: k in Correspondents(destinations) ==> k in s.contacts && DestinationsOf(destinations, k) != []
  {
    forall k | k in Correspondents(destinations) ensures k in s.contacts && DestinationsOf(destinations, k) != [] {
      var d :| d in destinations && destinations[d].active && destinations[d].correspondent == k;
      assert d in DestinationsOf(destinations, k);
    }
  }

  /** `_backfill_correspondent_recipients_impl` */
  function Pass(s: State, destinations: Destinations, check: Check): Passed
    requires WellFormed(s, destinations)
  {
    CorrespondentsExist(s, destinations);
    PassFrom(s, Correspondents(destinations), s.contacts, NONE, destinations, check)
  }

  // ---------------------------------------------------------------- what a pass achieves

  /** The organization under which a contact is promoted, as the contact now stands. */
  function OrganizationOf(contacts: Contacts, k: Id): Option<Id>
    requires k in contacts
  {
    if contacts[k].kind.Organization? then Some(k) else contacts[k].organization
  }

  /** The correspondent has an active organization, and nothing is left to do for it. */
  ghost predicate Settled(s: State, k: Id, destinations: Destinations) {
    && k in s.contacts && OrganizationOf(s.contacts, k).Some?
    && var o := OrganizationOf(s.contacts, k).value;
       && o in s.contacts && s.contacts[o].kind.Organization? && s.contacts[o].active
       && Finished(s.rows, o, Elements(DestinationsOf(destinations, k)))
  }

  /** Contacts change little during a pass: persons that were not visited yet not at all, activity only grows. */
  ghost predicate ContactsKept(read: Contacts, contacts: Contacts, todo: seq<Id>) {
    && read.Keys <= contacts.Keys
    && (forall c :: c in read ==> contacts[c].kind == read[c].kind && (read[c].active ==> contacts[c].active))
    && (forall c :: c in read && c in todo && read[c].kind.Person? ==> contacts[c] == read[c])
  }

  /** Whoever a pass activates is an organization with an active row. */
  ghost predicate ActivatedHaveRows(read: Contacts, s: State) {
    forall c :: c in s.contacts && s.contacts[c].active && !(c in read && read[c].active) ==>
      s.contacts[c].kind.Organization? && HasActiveRow(s.rows, c)
  }

  /** The facts about one resolution that a pass needs. */
  ghost predicate ResolvedWell(contacts: Contacts, k: Id, r: Resolution) {
    && contacts.Keys <= r.contacts.Keys && r.organization in r.contacts && k in contacts
    && OrganizationOf(r.contacts, k) == Some(r.organization)
    && r.contacts[r.organization].kind.Organization? && r.contacts[r.organization].active
    && (forall c :: c in contacts ==>
          r.contacts[c].kind == contacts[c].kind && (contacts[c].active ==> r.contacts[c].active))
    && (forall c :: c in contacts && c != k && c != r.organization ==> r.contacts[c] == contacts[c])
    && (forall c :: c in contacts && contacts[c].kind.Person? && c != k ==> r.contacts[c] == contacts[c])
    && (forall c :: c in r.contacts && c !in contacts ==> c == r.organization)
    && (contacts[k].kind.Person? ==> r.contacts[k].active == contacts[k].active)
  }

  lemma Resolved(contacts: Contacts, k: Id, read: Contact)
    requires k in contacts && contacts[k].kind == read.kind && (read.kind.Person? ==> contacts[k] == read)
    requires read.active && contacts[k].active
    ensures ResolvedWell(contacts, k, Resolve(contacts, k, read))
  {
    if read.kind.Person? && !Placed(contacts, read) {
      ResolvedToSupport(contacts, k, read);
    }
  }

  lemma ResolvedToSupport(contacts: Contacts, k: Id, read: Contact)
    requires k in contacts && contacts[k] == read && read.kind.Person?
    requires !Placed(contacts, read)
    ensures ResolvedWell(contacts, k, Resolve(contacts, k, read))
  {
    AttachedWell(contacts, k, WithSupport(contacts));
  }

  lemma AttachedWell(contacts: Contacts, k: Id, support: Resolution)
    requires k in contacts && contacts[k].kind.Person?
    requires support.contacts.Keys == contacts.Keys + {support.organization}
    requires support.contacts[support.organization].kind.Organization? && support.contacts[support.organization].active
    requires support.organization in contacts ==> contacts[support.organization].kind.Organization?
    requires forall c :: c in contacts && c != support.organization ==> support.contacts[c] == contacts[c]
    ensures
      var attached := support.contacts[k := support.contacts[k].(organization := Some(support.organization))];
      && (contacts[k].organization == Some(support.organization) ==> ResolvedWell(contacts, k, support))
      && ResolvedWell(contacts, k, support.(contacts := attached, attached := true))
  {
  }

  lemma SettledStays(s: State, after: State, k: Id, destinations: Destinations)
    requires Settled(s, k, destinations) && UniqueOrganizations(after.rows) && RowsKept(s.rows, after.rows)
    requires s.contacts.Keys <= after.contacts.Keys
    requires forall c :: c in s.contacts ==>
      after.contacts[c].kind == s.contacts[c].kind && (s.contacts[c].active ==> after.contacts[c].active)
    requires s.contacts[k].kind.Person? ==> after.contacts[k] == s.contacts[k]
    ensures Settled(after, k, destinations)
  {
    FinishedStays(s.rows, after.rows, OrganizationOf(s.contacts, k).value, Elements(DestinationsOf(destinations, k)));
  }

  lemma ActiveRowStays(before: Organizations, after: Organizations, organization: Id)
    requires HasActiveRow(before, organization) && RowsKept(before, after)
    ensures HasActiveRow(after, organization)
  {
    var id :| id in before && before[id].organization == organization && before[id].active;
    assert after[id].active;
  }

  /** What one round of the pass keeps and achieves. */
  lemma RoundOfPass(s: State, k: Id, rest: seq<Id>, read: Contacts, destinations: Destinations, check: Check)
    requires k in read && k in s.contacts && DestinationsOf(destinations, k) != [] && k !in rest
    requires UniqueOrganizations(s.rows) && ContactsKept(read, s.contacts, [k] + rest) && ActivatedHaveRows(read, s)
    requires PromoteContact(s, k, read[k], destinations, check).Went?
    ensures var after := PromoteContact(s, k, read[k], destinations, check).state;
      && UniqueOrganizations(after.rows) && RowsKept(s.rows, after.rows)
      && ContactsKept(read, after.contacts, rest) && ActivatedHaveRows(read, after)
      && (read[k].active ==> Settled(after, k, destinations))
      && (forall j :: j != k && Settled(s, j, destinations) ==> Settled(after, j, destinations))
  {
    var after := PromoteContact(s, k, read[k], destinations, check).state;
    assert k in [k] + rest && forall c :: c in rest ==> c in [k] + rest;
    if read[k].active {
      var r := Resolve(s.contacts, k, read[k]);
      var ds := DestinationsOf(destinations, k);
      Resolved(s.contacts, k, read[k]);
      PromotedAll(r.contacts, s.rows, r.organization, ds, check);
      ActivatedStay(s, after, read, r.organization);
      forall j | j != k && Settled(s, j, destinations) ensures Settled(after, j, destinations) {
        SettledStays(s, after, j, destinations);
      }
    }
  }

  lemma ActivatedStay(s: State, after: State, read: Contacts, organization: Id)
    requires ActivatedHaveRows(read, s) && RowsKept(s.rows, after.rows) && HasActiveRow(after.rows, organization)
    requires organization in after.contacts && after.contacts[organization].kind.Organization?
    requires forall c :: c in after.contacts && c != organization ==>
      c in s.contacts && after.contacts[c].kind == s.contacts[c].kind
        && (after.contacts[c].active ==> s.contacts[c].active)
    ensures ActivatedHaveRows(read, after)
  {
    forall c | c in after.contacts && after.contacts[c].active && !(c in read && read[c].active)
      ensures after.contacts[c].kind.Organization? && HasActiveRow(after.rows, c)
    {
      if c != organization { ActiveRowStays(s.rows, after.rows, c); }
    }
  }

  /** After a pass every active correspondent is settled. */
  lemma {:induction false} AfterPass(
    s: State, ks: seq<Id>, read: Contacts, sum: Summary, destinations: Destinations, check: Check)
    requires Ascending(ks) && forall k :: k in ks ==> k in read && DestinationsOf(destinations, k) != []
    requires UniqueOrganizations(s.rows) && ContactsKept(read, s.contacts, ks) && ActivatedHaveRows(read, s)
    requires PassFrom(s, ks, read, sum, destinations, check).Completed?
    ensures var after := PassFrom(s, ks, read, sum, destinations, check).state;
      && UniqueOrganizations(after.rows) && RowsKept(s.rows, after.rows)
      && ContactsKept(read, after.contacts, []) && ActivatedHaveRows(read, after)
      && (forall k :: k in ks && read[k].active ==> Settled(after, k, destinations))
      && (forall j :: j !in ks && Settled(s, j, destinations) ==> Settled(after, j, destinations))
    decreases |ks|
  {
    if ks != [] {
      var k, rest := ks[0], ks[1..];
      assert k in ks && ks == [k] + rest && k !in rest;
      RoundOfPass(s, k, rest, read, destinations, check);
      var went := PromoteContact(s, k, read[k], destinations, check);
      AfterPass(went.state, rest, read, sum.Add(went.report), destinations, check);
      KeptTransitive(s.rows, went.state.rows, PassFrom(s, ks, read, sum, destinations, check).state.rows);
    }
  }

  // ---------------------------------------------------------------- a second pass

  /** A settled correspondent, read as it stands, is left alone. */
  lemma IdleRound(s: State, k: Id, destinations: Destinations, check: Check)
    requires Settled(s, k, destinations)
    ensures PromoteContact(s, k, s.contacts[k], destinations, check) == Went(s, NOTHING)
  {
    var o := OrganizationOf(s.contacts, k).value;
    FinishedIsIdle(s.contacts, s.rows, o, DestinationsOf(destinations, k), check);
    assert s.contacts[o := s.contacts[o].(active := true)] == s.contacts;
  }

  /** An active organization with an active row reports nothing, though its row may still be made ready. */
  lemma QuietRound(s: State, k: Id, destinations: Destinations, check: Check)
    requires k in s.contacts && s.contacts[k].kind.Organization? && s.contacts[k].active && HasActiveRow(s.rows, k)
    requires UniqueOrganizations(s.rows) && DestinationsOf(destinations, k) != []
    requires PromoteContact(s, k, s.contacts[k], destinations, check).Went?
    ensures var went := PromoteContact(s, k, s.contacts[k], destinations, check);
      && went.report == NOTHING && went.state.contacts == s.contacts && RowsKept(s.rows, went.state.rows)
      && UniqueOrganizations(went.state.rows) && Settled(went.state, k, destinations)
  {
    PromotedAll(s.contacts, s.rows, k, DestinationsOf(destinations, k), check);
    ActiveRowReportsNothing(s.contacts, s.rows, k, DestinationsOf(destinations, k), check);
  }

  /** What a pass leaves of each correspondent: it is inactive, or settled, or an organization with an active row. */
  ghost predicate Calm(s: State, k: Id, destinations: Destinations) {
    && k in s.contacts
    && (s.contacts[k].active ==>
          Settled(s, k, destinations) || (s.contacts[k].kind.Organization? && HasActiveRow(s.rows, k)))
  }

  lemma CalmStays(s: State, after: State, k: Id, destinations: Destinations)
    requires Calm(s, k, destinations) && after.contacts == s.contacts && RowsKept(s.rows, after.rows)
    requires UniqueOrganizations(after.rows)
    ensures Calm(after, k, destinations)
  {
    if Settled(s, k, destinations) { SettledStays(s, after, k, destinations); }
    if HasActiveRow(s.rows, k) { ActiveRowStays(s.rows, after.rows, k); }
  }

  function Idle(sum: Summary, n: nat): Summary {
    sum.(processed := sum.processed + n)
  }

  lemma {:induction false} SecondPass(
    s: State, ks: seq<Id>, read: Contacts, sum: Summary, destinations: Destinations, check: Check)
    requires read == s.contacts && UniqueOrganizations(s.rows)
    requires forall k :: k in ks ==> k in read && Calm(s, k, destinations) && DestinationsOf(destinations, k) != []
    requires PassFrom(s, ks, read, sum, destinations, check).Completed?
    ensures var p := PassFrom(s, ks, read, sum, destinations, check);
      && p.summary == Idle(sum, |ks|) && p.state.contacts == s.contacts
      && RowsKept(s.rows, p.state.rows) && UniqueOrganizations(p.state.rows)
      && (forall k :: k in ks && read[k].active ==> Settled(p.state, k, destinations))
    decreases |ks|
  {
    if ks != [] {
      var k, rest := ks[0], ks[1..];
      assert k in ks && forall j :: j in rest ==> j in ks;
      var went := PromoteContact(s, k, read[k], destinations, check);
      if s.contacts[k].active {
        if Settled(s, k, destinations) {
          IdleRound(s, k, destinations, check);
        } else {
          QuietRound(s, k, destinations, check);
        }
      }
      assert went.report == NOTHING && went.state.contacts == s.contacts && RowsKept(s.rows, went.state.rows);
      forall j | j in rest ensures Calm(went.state, j, destinations) {
        CalmStays(s, went.state, j, destinations);
      }
      SecondPass(went.state, rest, read, sum.Add(NOTHING), destinations, check);
      var last := PassFrom(s, ks, read, sum, destinations, check).state;
      KeptTransitive(s.rows, went.state.rows, last.rows);
      if read[k].active { SettledStays(went.state, last, k, destinations); }
      assert forall j :: j in ks ==> j == k || j in rest;
    }
  }

  lemma {:induction false} IdlePass(
    s: State, ks: seq<Id>, read: Contacts, sum: Summary, destinations: Destinations, check: Check)
    requires read == s.contacts && forall k :: k in ks ==> k in read && (read[k].active ==> Settled(s, k, destinations))
    ensures PassFrom(s, ks, read, sum, destinations, check) == Completed(s, Idle(sum, |ks|))
    decreases |ks|
  {
    if ks != [] {
      assert ks[0] in ks && forall j :: j in ks[1..] ==> j in ks;
      if read[ks[0]].active { IdleRound(s, ks[0], destinations, check); }
      IdlePass(s, ks[1..], read, sum.Add(NOTHING), destinations, check);
    }
  }

  /** An active organization is the correspondent of a destination where its active row is not validated or not
      marked as correspondent: the one thing a pass may leave behind. */
  ghost predicate Ripe(s: State, destinations: Destinations) {
    exists k, id :: RipeRow(s, destinations, k, id)
  }

  ghost predicate RipeRow(s: State, destinations: Destinations, k: Id, id: Id) {
    && k in Correspondents(destinations) && k in s.contacts && s.contacts[k].kind.Organization? && s.contacts[k].active
    && id in s.rows && s.rows[id].organization == k && s.rows[id].active
    && s.rows[id].destination in DestinationsOf(destinations, k) && !IsReady(s.rows[id])
  }

  lemma CalmNotRipeIsSettled(s: State, k: Id, destinations: Destinations)
    requires Calm(s, k, destinations) && s.contacts[k].active && UniqueOrganizations(s.rows)
    requires k in Correspondents(destinations)
    requires !Ripe(s, destinations)
    ensures Settled(s, k, destinations)
  {
    if !Settled(s, k, destinations) {
      var own :| own in s.rows && s.rows[own].organization == k && s.rows[own].active;
      assert forall id :: id in s.rows && s.rows[id].organization == k ==> SameOrganization(s.rows, id, own);
      assert !RipeRow(s, destinations, k, own);
    }
  }

  /** After a successful pass a second one reports no change. It leaves everything equal exactly when no row is ripe;
      then no validation can stop it either. */
  lemma BackfillTwice(s: State, destinations: Destinations, check: Check)
    requires WellFormed(s, destinations) && UniqueOrganizations(s.rows) && Pass(s, destinations, check).Completed?
    ensures var first := Pass(s, destinations, check).state;
      && WellFormed(first, destinations) && UniqueOrganizations(first.rows) && RowsKept(s.rows, first.rows)
      && var second := Pass(first, destinations, check);
         && (second.Completed? ==>
               second.summary == Idle(NONE, |Correspondents(destinations)|) && second.state.contacts == first.contacts)
         && (second.Completed? && second.state == first <==> !Ripe(first, destinations))
  {
    var ks := Correspondents(destinations);
    CorrespondentsExist(s, destinations);
    AfterPass(s, ks, s.contacts, NONE, destinations, check);
    var first := Pass(s, destinations, check).state;
    CorrespondentsExist(first, destinations);
    assert forall k :: k in ks ==> Calm(first, k, destinations);
    if Pass(first, destinations, check).Completed? {
      SecondPass(first, ks, first.contacts, NONE, destinations, check);
    }
    if !Ripe(first, destinations) {
      forall k | k in ks && first.contacts[k].active ensures Settled(first, k, destinations) {
        CalmNotRipeIsSettled(first, k, destinations);
      }
      IdlePass(first, ks, first.contacts, NONE, destinations, check);
    } else {
      var k, id :| RipeRow(first, destinations, k, id);
      assert first.rows[id].destination in Elements(DestinationsOf(destinations, k));
      assert !Settled(first, k, destinations);
    }
  }

  /** Without inactive organizations among the correspondents nothing is ripe after a pass. */
  lemma ActiveOrganizationsNeverRipe(s: State, destinations: Destinations, check: Check)
    requires WellFormed(s, destinations) && UniqueOrganizations(s.rows) && Pass(s, destinations, check).Completed?
    requires forall k :: k in Correspondents(destinations) && s.contacts[k].kind.Organization? ==> s.contacts[k].active
    ensures !Ripe(Pass(s, destinations, check).state, destinations)
  {
    var ks := Correspondents(destinations);
    CorrespondentsExist(s, destinations);
    AfterPass(s, ks, s.contacts, NONE, destinations, check);
    var first := Pass(s, destinations, check).state;
    forall k, id ensures !RipeRow(first, destinations, k, id) {
      if k in ks && first.contacts[k].kind.Organization? {
        assert Settled(first, k, destinations);
        assert forall d :: d in DestinationsOf(destinations, k) ==> d in Elements(DestinationsOf(destinations, k));
      }
    }
  }

  // ---------------------------------------------------------------- what is ripe, told before the pass

  /** An active person whose own organization this is. */
  ghost predicate DirectlyIn(read: Contacts, p: Id, o: Id) {
    && p in read && read[p].kind.Person? && read[p].active && read[p].organization == Some(o)
    && o in read && read[o].kind.Organization?
  }

  /** The person goes to the support organization: it has no organization of its own. */
  ghost predicate Unattached(read: Contacts, p: Id) {
    p in read && read[p].kind.Person? && read[p].active && !exists o :: DirectlyIn(read, p, o)
  }

  /** No correspondent before `p` is directly in another support organization, which it would activate. */
  ghost predicate NoOtherSupport(read: Contacts, ks: seq<Id>, p: Id, o: Id) {
    forall q, x :: q in ks && q < p && x != o && DirectlyIn(read, q, x) ==> !IsSupport(read[x])
  }

  /** A pass over the correspondents `ks` activates the organization for `p`, as far as it is inactive. */
  ghost predicate Joins(read: Contacts, ks: seq<Id>, p: Id, o: Id) {
    || DirectlyIn(read, p, o)
    || (Unattached(read, p) && ExistingSupport(read) == Some(o) && NoOtherSupport(read, ks, p, o))
  }

  ghost predicate Joined(read: Contacts, ks: seq<Id>, done: seq<Id>, o: Id) {
    exists p :: p in done && Joins(read, ks, p, o)
  }

  /** The contacts after the visits in `done`: an inactive contact is activated exactly when a visitor joins it. */
  ghost predicate Traced(read: Contacts, contacts: Contacts, ks: seq<Id>, done: seq<Id>) {
    && read.Keys <= contacts.Keys
    && (forall c :: c in read ==>
          contacts[c].kind == read[c].kind && contacts[c].name == read[c].name
            && (read[c].active ==> contacts[c].active))
    && (forall c :: c in contacts && c !in read ==> ExistingSupport(read).None?)
    && (forall c :: c in read && !read[c].active ==> (contacts[c].active <==> Joined(read, ks, done, c)))
  }

  lemma JoinedByOne(read: Contacts, ks: seq<Id>, done: seq<Id>, p: Id, o: Id)
    ensures Joined(read, ks, done + [p], o) <==> Joined(read, ks, done, o) || Joins(read, ks, p, o)
  {
    assert p in done + [p];
    assert forall q :: q in done ==> q in done + [p];
  }

  /** A visit that activates `o` and nobody else. */
  lemma TraceActivates(read: Contacts, before: Contacts, after: Contacts, ks: seq<Id>, done: seq<Id>, p: Id, o: Id)
    requires Traced(read, before, ks, done) && before.Keys <= after.Keys
    requires forall c :: c in read ==> after[c].kind == read[c].kind && after[c].name == read[c].name
    requires forall c :: c in read ==> (after[c].active <==> before[c].active || c == o)
    requires forall c :: c in after && c !in before ==> ExistingSupport(read).None?
    requires forall c :: c in read && !read[c].active && !before[c].active ==> (Joins(read, ks, p, c) <==> c == o)
    ensures Traced(read, after, ks, done + [p])
  {
    forall c | c in read && !read[c].active ensures after[c].active <==> Joined(read, ks, done + [p], c) {
      JoinedByOne(read, ks, done, p, c);
    }
  }

  /** A visit that activates nobody. */
  lemma TraceIdle(read: Contacts, before: Contacts, after: Contacts, ks: seq<Id>, done: seq<Id>, p: Id)
    requires Traced(read, before, ks, done) && before.Keys <= after.Keys
    requires forall c :: c in read ==>
      after[c].kind == read[c].kind && after[c].name == read[c].name && after[c].active == before[c].active
    requires forall c :: c in after && c !in before ==> ExistingSupport(read).None?
    requires forall c :: c in read && !read[c].active && !before[c].active ==> !Joins(read, ks, p, c)
    ensures Traced(read, after, ks, done + [p])
  {
    forall c | c in read && !read[c].active ensures after[c].active <==> Joined(read, ks, done + [p], c) {
      JoinedByOne(read, ks, done, p, c);
    }
  }

  /** The support organization met at a visit: an active one if there is any, else the one of the start. */
  lemma SupportMet(read: Contacts, contacts: Contacts, ks: seq<Id>, done: seq<Id>, p: Id)
    requires Traced(read, contacts, ks, done) && ExistingSupport(read).Some?
    requires forall q :: q in done <==> q in ks && q < p
    ensures var o, found := ExistingSupport(read).value, ExistingSupport(contacts);
      && found.Some? && found.value in read
      && (read[o].active || contacts[o].active ==> contacts[found.value].active)
      && (!read[o].active && !contacts[o].active ==>
            if NoOtherSupport(read, ks, p, o) then found == Some(o) else contacts[found.value].active)
  {
    var o := ExistingSupport(read).value;
    assert IsSupport(read[o]) by { FoundIsSupport(read); }
    SupportChosen(contacts, o);
    var found := ExistingSupport(contacts).value;
    assert found in read;
    if !read[o].active && !contacts[o].active {
      SupportChosen(read, found);
      if NoOtherSupport(read, ks, p, o) {
        assert found != o ==> forall q :: q in done ==> !Joins(read, ks, q, found);
      } else {
        var q, x :| q in ks && q < p && x != o && DirectlyIn(read, q, x) && IsSupport(read[x]);
        SupportChosen(read, x);
        assert Joins(read, ks, q, x) && Joined(read, ks, done, x);
        SupportChosen(contacts, x);
      }
    }
  }

  lemma FoundIsSupport(contacts: Contacts)
    requires ExistingSupport(contacts).Some?
    ensures IsSupport(contacts[ExistingSupport(contacts).value])
  {
    var c :| c in contacts && IsSupport(contacts[c]);
    SupportChosen(contacts, c);
  }

  /** What a visit does to the contacts. */
  function Visited(contacts: Contacts, p: Id, read: Contact): Contacts
    requires p in contacts
  {
    if read.active then Resolve(contacts, p, read).contacts else contacts
  }

  /** Kinds and names stay, and only `o` becomes active, a new contact if there is no support organization. */
  ghost predicate Activates(before: Contacts, after: Contacts, o: Id) {
    && after.Keys == before.Keys + {o} && (o !in before ==> ExistingSupport(before).None?)
    && (forall c :: c in before ==> after[c].kind == before[c].kind && after[c].name == before[c].name)
    && (forall c :: c in before ==> (after[c].active <==> before[c].active || c == o))
  }

  lemma SupportActivates(contacts: Contacts)
    ensures Activates(contacts, WithSupport(contacts).contacts, WithSupport(contacts).organization)
  {
    var support := WithSupport(contacts);
    assert ExistingSupport(contacts).Some? ==> support.organization == ExistingSupport(contacts).value;
  }

  lemma AttachedActivates(before: Contacts, after: Contacts, o: Id, k: Id, organization: Option<Id>)
    requires Activates(before, after, o) && k in after
    ensures Activates(before, after[k := after[k].(organization := organization)], o)
  {
  }

  lemma ResolveActivates(contacts: Contacts, p: Id, read: Contact)
    requires p in contacts && read.kind.Person?
    ensures Activates(contacts, Resolve(contacts, p, read).contacts, Resolve(contacts, p, read).organization)
    ensures Resolve(contacts, p, read).organization
         == if Placed(contacts, read) then read.organization.value else WithSupport(contacts).organization
  {
    if !Placed(contacts, read) {
      var support := WithSupport(contacts);
      SupportActivates(contacts);
      AttachedActivates(contacts, support.contacts, support.organization, p, Some(support.organization));
    }
  }

  /** A person without a support organization to go to: one is made, or was made during the pass. */
  lemma UnsupportedTraced(contacts: Contacts, read: Contacts, ks: seq<Id>, done: seq<Id>, p: Id)
    requires Traced(read, contacts, ks, done) && p in read && Unattached(read, p) && ExistingSupport(read).None?
    ensures Traced(read, Visited(contacts, p, read[p]), ks, done + [p])
  {
    forall c | c in read ensures !IsSupport(read[c]) {
      if IsSupport(read[c]) { SupportChosen(read, c); }
    }
    if ExistingSupport(contacts).Some? { FoundIsSupport(contacts); }
    ResolveActivates(contacts, p, read[p]);
    assert forall o :: read[p].organization == Some(o) && o in read && read[o].kind.Organization? ==>
      DirectlyIn(read, p, o);
    TraceIdle(read, contacts, Visited(contacts, p, read[p]), ks, done, p);
  }

  lemma GoesToSupport(contacts: Contacts, read: Contacts, p: Id)
    requires p in read && Unattached(read, p) && p in contacts && ExistingSupport(contacts).Some?
    requires forall c :: c in contacts && contacts[c].kind.Organization? ==> c in read && read[c].kind.Organization?
    ensures Resolve(contacts, p, read[p]).organization == ExistingSupport(contacts).value
    ensures Activates(contacts, Visited(contacts, p, read[p]), ExistingSupport(contacts).value)
  {
    ResolveActivates(contacts, p, read[p]);
    assert !Placed(contacts, read[p]) by {
      if Placed(contacts, read[p]) { assert DirectlyIn(read, p, read[p].organization.value); }
    }
  }

  /** A person who goes to a support organization that exists. */
  lemma SupportedTraced(contacts: Contacts, after: Contacts, read: Contacts, ks: seq<Id>, done: seq<Id>, p: Id)
    requires Traced(read, contacts, ks, done) && forall q :: q in done <==> q in ks && q < p
    requires p in read && Unattached(read, p) && ExistingSupport(read).Some? && ExistingSupport(contacts).Some?
    requires Activates(contacts, after, ExistingSupport(contacts).value)
    ensures Traced(read, after, ks, done + [p])
  {
    SupportMet(read, contacts, ks, done, p);
    var found := ExistingSupport(contacts).value;
    if contacts[found].active {
      TraceIdle(read, contacts, after, ks, done, p);
    } else {
      TraceActivates(read, contacts, after, ks, done, p, found);
    }
  }

  /** One visit: whom it activates. */
  lemma VisitTraced(contacts: Contacts, read: Contacts, ks: seq<Id>, done: seq<Id>, p: Id)
    requires Traced(read, contacts, ks, done) && p in read && forall q :: q in done <==> q in ks && q < p
    ensures Traced(read, Visited(contacts, p, read[p]), ks, done + [p])
  {
    if !read[p].active || read[p].kind.Organization? {
      TraceIdle(read, contacts, contacts, ks, done, p);
    } else if exists o :: DirectlyIn(read, p, o) {
      var o :| DirectlyIn(read, p, o);
      TraceActivates(read, contacts, Visited(contacts, p, read[p]), ks, done, p, o);
    } else if ExistingSupport(read).None? {
      UnsupportedTraced(contacts, read, ks, done, p);
    } else {
      SupportMet(read, contacts, ks, done, p);
      GoesToSupport(contacts, read, p);
      SupportedTraced(contacts, Visited(contacts, p, read[p]), read, ks, done, p);
    }
  }

  // ---------------------------------------------------------------- rows of a pass

  /** Whatever is written is ready. */
  ghost predicate OnlyReadyWritten(before: Organizations, after: Organizations) {
    forall id :: id in after ==> IsReady(after[id]) || (id in before && after[id] == before[id])
  }

  lemma {:induction false} AllWritten(
    contacts: Contacts, rows: Organizations, organization: Id, ds: seq<Id>, check: Check)
    requires PromoteAll(contacts, rows, organization, ds, check).Promoted?
    ensures OnlyReadyWritten(rows, PromoteAll(contacts, rows, organization, ds, check).rows)
    ensures forall id :: id in rows && rows[id].active && rows[id].destination !in ds ==>
      id in PromoteAll(contacts, rows, organization, ds, check).rows
      && PromoteAll(contacts, rows, organization, ds, check).rows[id] == rows[id]
    decreases |ds|
  {
    if ds != [] {
      var rows1 := PromoteAt(contacts, rows, organization, ds[0], check).rows;
      assert ds[0] in ds && forall d :: d in ds[1..] ==> d in ds;
      AllWritten(contacts, rows1, organization, ds[1..], check);
    }
  }

  /** The active row of an organization at one of the organization's own destinations. */
  ghost predicate OwnRow(rows: Organizations, destinations: Destinations, o: Id, id: Id) {
    && id in rows && rows[id].organization == o && rows[id].active
    && rows[id].destination in DestinationsOf(destinations, o)
  }

  ghost predicate TraceKept(read: Contacts, contacts: Contacts, ks: seq<Id>, done: seq<Id>) {
    read.Keys <= contacts.Keys && forall u :: Unfold(u, TheTrace) ==> Traced(read, contacts, ks, done)
  }

  lemma RoundTraced(
    s: State, ks: seq<Id>, done: seq<Id>, p: Id, rest: seq<Id>, read: Contacts, destinations: Destinations,
    check: Check)
    requires Ascending(ks) && ks == done + [p] + rest && TraceKept(read, s.contacts, ks, done)
    requires p in read && DestinationsOf(destinations, p) != []
    requires PromoteContact(s, p, read[p], destinations, check).Went?
    ensures TraceKept(read, PromoteContact(s, p, read[p], destinations, check).state.contacts, ks, done + [p])
  {
    assert Unfold(0, TheTrace);
    SplitAscending(ks, done, p, rest);
    VisitTraced(s.contacts, read, ks, done, p);
  }

  /** Over a pass contacts are activated by those who join them. */
  lemma {:induction false} PassTraced(
    s: State, ks: seq<Id>, done: seq<Id>, todo: seq<Id>, read: Contacts, sum: Summary, destinations: Destinations,
    check: Check)
    requires Ascending(ks) && ks == done + todo && TraceKept(read, s.contacts, ks, done)
    requires forall k :: k in ks ==> k in read && DestinationsOf(destinations, k) != []
    requires PassFrom(s, todo, read, sum, destinations, check).Completed?
    ensures TraceKept(read, PassFrom(s, todo, read, sum, destinations, check).state.contacts, ks, ks)
    decreases |todo|
  {
    if todo == [] {
      assert ks == done;
    } else {
      var p, rest := todo[0], todo[1..];
      var went := PromoteContact(s, p, read[p], destinations, check);
      assert ks == done + [p] + rest && p == ks[|done|];
      RoundTraced(s, ks, done, p, rest, read, destinations, check);
      PassTraced(went.state, ks, done + [p], rest, read, sum.Add(went.report), destinations, check);
    }
  }

  /** Only ready rows are written, and the own rows of inactive contacts stay as they are. */
  ghost predicate WrittenWell(before: Organizations, after: Organizations, read: Contacts, destinations: Destinations) {
    && OnlyReadyWritten(before, after)
    && (forall k, id :: k in read && !read[k].active && OwnRow(before, destinations, k, id) ==>
          id in after && after[id] == before[id])
  }

  lemma {:induction false} PassWrites(
    s: State, ks: seq<Id>, read: Contacts, sum: Summary, destinations: Destinations, check: Check)
    requires read.Keys <= s.contacts.Keys && forall k :: k in ks ==> k in read
    requires PassFrom(s, ks, read, sum, destinations, check).Completed?
    ensures WrittenWell(s.rows, PassFrom(s, ks, read, sum, destinations, check).state.rows, read, destinations)
    decreases |ks|
  {
    if ks != [] {
      var p, rest := ks[0], ks[1..];
      assert p in ks && forall k :: k in rest ==> k in ks;
      var went := PromoteContact(s, p, read[p], destinations, check);
      ContactsGrow(s, p, read[p], destinations, check);
      VisitWrites(s, p, read, destinations, check);
      PassWrites(went.state, rest, read, sum.Add(went.report), destinations, check);
      WritesChain(
        s.rows, went.state.rows, PassFrom(s, ks, read, sum, destinations, check).state.rows, read, destinations);
    }
  }

  lemma WritesChain(
    before: Organizations, between: Organizations, after: Organizations, read: Contacts, destinations: Destinations)
    requires WrittenWell(before, between, read, destinations) && WrittenWell(between, after, read, destinations)
    ensures WrittenWell(before, after, read, destinations)
  {
    forall k, id | k in read && !read[k].active && OwnRow(before, destinations, k, id)
      ensures id in after && after[id] == before[id]
    {
      assert OwnRow(between, destinations, k, id);
    }
  }

  lemma SplitAscending(ks: seq<Id>, done: seq<Id>, p: Id, rest: seq<Id>)
    requires Ascending(ks) && ks == done + [p] + rest
    ensures p in ks && forall q :: q in done <==> q in ks && q < p
  {
    assert ks[|done|] == p;
    forall q ensures q in done <==> q in ks && q < p {
      if q in done {
        var i :| 0 <= i < |done| && done[i] == q;
        assert ks[i] == q;
      }
      if q in ks && q < p {
        var i :| 0 <= i < |ks| && ks[i] == q;
        assert done[i] == q;
      }
    }
  }

  lemma VisitWrites(s: State, p: Id, read: Contacts, destinations: Destinations, check: Check)
    requires p in read && p in s.contacts && PromoteContact(s, p, read[p], destinations, check).Went?
    ensures WrittenWell(s.rows, PromoteContact(s, p, read[p], destinations, check).state.rows, read, destinations)
  {
    var ds := DestinationsOf(destinations, p);
    if read[p].active && ds != [] {
      var r := Resolve(s.contacts, p, read[p]);
      AllWritten(r.contacts, s.rows, r.organization, ds, check);
    }
  }

  /** Before a pass: an inactive organization is the correspondent of a destination where it has an active row that is
      not ready, and some correspondent will activate it. */
  ghost predicate Ripening(s: State, destinations: Destinations) {
    exists k, id :: RipeningRow(s, destinations, k, id)
  }

  ghost predicate RipeningRow(s: State, destinations: Destinations, k: Id, id: Id) {
    && k in Correspondents(destinations) && k in s.contacts && s.contacts[k].kind.Organization? && !s.contacts[k].active
    && OwnRow(s.rows, destinations, k, id) && !IsReady(s.rows[id])
    && Joined(s.contacts, Correspondents(destinations), Correspondents(destinations), k)
  }

  /** What a pass leaves ripe, told from the state before it. */
  lemma RipeIffRipening(s: State, destinations: Destinations, check: Check)
    requires WellFormed(s, destinations) && UniqueOrganizations(s.rows) && Pass(s, destinations, check).Completed?
    ensures Ripe(Pass(s, destinations, check).state, destinations) <==> Ripening(s, destinations)
  {
    var ks := Correspondents(destinations);
    CorrespondentsExist(s, destinations);
    AfterPass(s, ks, s.contacts, NONE, destinations, check);
    PassTraced(s, ks, [], ks, s.contacts, NONE, destinations, check);
    assert Unfold(0, TheTrace);
    PassWrites(s, ks, s.contacts, NONE, destinations, check);
    var first := Pass(s, destinations, check).state;
    RipeByRows(s, first, ks, destinations);
  }

  lemma RipeByRows(s: State, first: State, ks: seq<Id>, destinations: Destinations)
    requires ks == Correspondents(destinations) && forall k :: k in ks ==> k in s.contacts
    requires Traced(s.contacts, first.contacts, ks, ks) && WrittenWell(s.rows, first.rows, s.contacts, destinations)
    requires forall k :: k in ks && s.contacts[k].active ==> Settled(first, k, destinations)
    ensures Ripe(first, destinations) <==> Ripening(s, destinations)
  {
    forall k, id ensures RipeRow(first, destinations, k, id) <==> RipeningRow(s, destinations, k, id) {
      if k in ks { RipeRowTraced(s, first, ks, k, id, destinations); }
    }
  }

  lemma RipeRowTraced(s: State, first: State, ks: seq<Id>, k: Id, id: Id, destinations: Destinations)
    requires ks == Correspondents(destinations) && k in ks && k in s.contacts
    requires Traced(s.contacts, first.contacts, ks, ks) && WrittenWell(s.rows, first.rows, s.contacts, destinations)
    requires s.contacts[k].active ==> Settled(first, k, destinations)
    ensures RipeRow(first, destinations, k, id) <==> RipeningRow(s, destinations, k, id)
  {
    assert forall d :: d in DestinationsOf(destinations, k) ==> d in Elements(DestinationsOf(destinations, k));
  }

  /** The exact condition on the state before any pass: a second pass succeeds and changes nothing at all if and only
      if no inactive organization is ripening. */
  lemma BackfillSettles(s: State, destinations: Destinations, check: Check)
    requires WellFormed(s, destinations) && UniqueOrganizations(s.rows) && Pass(s, destinations, check).Completed?
    ensures var first := Pass(s, destinations, check).state;
      && WellFormed(first, destinations)
      && var idle := Completed(first, Idle(NONE, |Correspondents(destinations)|));
         (Pass(first, destinations, check) == idle <==> !Ripening(s, destinations))
  {
    BackfillTwice(s, destinations, check);
    RipeIffRipening(s, destinations, check);
  }

  lemma Neighbours(ids: seq<Id>, i: nat)
    requires Ascending(ids) && i + 1 < |ids|
    ensures ids[i] in ids && ids[i + 1] in ids && ids[i] < ids[i + 1]
  {
  }

  lemma OneElement(ids: seq<Id>, x: Id)
    requires Ascending(ids) && forall y :: y in ids <==> y == x
    ensures ids == [x]
  {
    assert x in ids && ids[0] in ids;
    if |ids| > 1 { Neighbours(ids, 0); }
  }

  lemma TwoElements(ids: seq<Id>, x: Id, y: Id)
    requires x < y && Ascending(ids) && forall z :: z in ids <==> z == x || z == y
    ensures ids == [x, y]
  {
    assert x in ids && y in ids && ids[0] in ids;
    assert |ids| >= 2 && ids[1] in ids;
    if |ids| > 2 { Neighbours(ids, 1); }
  }

  /** A second pass may still write. An inactive organization is skipped although a person of it activates it; its own
      row becomes ready only in the second pass. */
  lemma SecondPassMayWrite() returns (s: State, destinations: Destinations, check: Check)
    ensures WellFormed(s, destinations) && UniqueOrganizations(s.rows) && Pass(s, destinations, check).Completed?
    ensures Ripe(Pass(s, destinations, check).state, destinations)
  {
    var organization := Contact(Organization, "ASSO", None, false, false, map[]);
    var person := Contact(Person, "ANNE", Some(1), false, true, map[]);
    s := State(map[1 := organization, 2 := person], map[5 := RecipientOrganization(1, 10, Pending, false, true)]);
    destinations := map[10 := Destination(1, true), 20 := Destination(2, true)];
    check := (c: Contacts, r: Organizations, i: Id, row: RecipientOrganization) => true;
    CorrespondentsAre(destinations);
    PersonActivates(s, person, destinations, check);
    TwoVisits(s, person, destinations, check);
    var first := State(s.contacts[1 := s.contacts[1].(active := true)], s.rows);
    assert RipeRow(first, destinations, 1, 5);
  }

  /** The pass skips the inactive organization and visits the person. */
  lemma TwoVisits(s: State, person: Contact, destinations: Destinations, check: Check)
    requires WellFormed(s, destinations) && Correspondents(destinations) == [1, 2]
    requires 1 in s.contacts && !s.contacts[1].active && 2 in s.contacts && s.contacts[2] == person
    requires PromoteContact(s, 2, person, destinations, check)
          == Went(State(s.contacts[1 := s.contacts[1].(active := true)], s.rows), NOTHING)
    ensures Pass(s, destinations, check)
         == Completed(State(s.contacts[1 := s.contacts[1].(active := true)], s.rows), NONE.Add(NOTHING).Add(NOTHING))
  {
    assert [1, 2][1..] == [2] && [2][1..] == [];
    assert PromoteContact(s, 1, s.contacts[1], destinations, check) == Went(s, NOTHING);
    assert PassFrom(s, [2], s.contacts, NONE.Add(NOTHING), destinations, check)
        == Completed(State(s.contacts[1 := s.contacts[1].(active := true)], s.rows), NONE.Add(NOTHING).Add(NOTHING));
  }

  /** The person's round activates the organization and leaves its active row alone. */
  lemma PersonActivates(s: State, person: Contact, destinations: Destinations, check: Check)
    requires 1 in s.contacts && s.contacts[1].kind.Organization? && 2 in s.contacts && s.contacts[2] == person
    requires person.kind.Person? && person.active && person.organization == Some(1)
    requires s.rows == map[5 := RecipientOrganization(1, 10, Pending, false, true)]
    requires DestinationsOf(destinations, 2) == [20]
    ensures PromoteContact(s, 2, person, destinations, check)
         == Went(State(s.contacts[1 := s.contacts[1].(active := true)], s.rows), NOTHING)
  {
    var contacts := s.contacts[1 := s.contacts[1].(active := true)];
    assert 5 in s.rows && s.rows[5].organization == 1;
    assert OrganizationFor(s.rows, 1) == Some(5);
    assert PromoteAt(contacts, s.rows, 1, 20, check) == Promoted(s.rows, false, false);
    assert [20][1..] == [];
    assert PromoteAll(contacts, s.rows, 1, [20], check) == Promoted(s.rows, false, false);
  }

  lemma CorrespondentsAre(destinations: Destinations)
    requires destinations == map[10 := Destination(1, true), 20 := Destination(2, true)]
    ensures Correspondents(destinations) == [1, 2]
    ensures DestinationsOf(destinations, 1) == [10] && DestinationsOf(destinations, 2) == [20]
  {
    OneElement(DestinationsOf(destinations, 1), 10);
    OneElement(DestinationsOf(destinations, 2), 20);
    assert destinations[10].correspondent == 1 && destinations[20].correspondent == 2;
    TwoElements(Correspondents(destinations), 1, 2);
  }

  // ---------------------------------------------------------------- the loops

  class Backfill {
    const destinations: Destinations
    const check: Check
    var contacts: Contacts
    var rows: Organizations

    constructor (destinations: Destinations, check: Check, contacts: Contacts, rows: Organizations)
      ensures this.destinations == destinations && this.check == check && this.contacts == contacts && this.rows == rows
    {
      this.destinations, this.check, this.contacts, this.rows := destinations, check, contacts, rows;
    }

    function Now(): State
      reads this
    {
      State(contacts, rows)
    }

    /** The loop over the destinations of one correspondent. */
    method PromoteDestinations(organization: Id, ds: seq<Id>) returns (done: bool, created: bool, reactivated: bool)
      modifies this`rows
      ensures match PromoteAll(contacts, old(rows), organization, ds, check)
        case Denied => !done
        case Promoted(rows', created', reactivated') =>
          done && rows == rows' && created == created' && reactivated == reactivated'
    {
      done, created, reactivated := true, false, false;
      var rest := ds;
      while rest != []
        invariant done
        invariant PromoteAll(contacts, old(rows), organization, ds, check)
            == After(PromoteAll(contacts, rows, organization, rest, check), created, reactivated)
        decreases |rest|
      {
        match PromoteAt(contacts, rows, organization, rest[0], check)
        case Denied =>
          return false, created, reactivated;
        case Promoted(rows', created', reactivated') =>
          rows, created, reactivated := rows', created || created', reactivated || reactivated';
          rest := rest[1..];
      }
    }

    /** `promote_correspondent_to_recipient_ready` */
    method Promote(k: Id, read: Contact) returns (report: Option<Report>)
      requires k in contacts
      modifies this`contacts, this`rows
      ensures match PromoteContact(old(Now()), k, read, destinations, check)
        case Stopped => report.None?
        case Went(state, r) => report == Some(r) && Now() == state
    {
      var ds := DestinationsOf(destinations, k);
      if !read.active || ds == [] {
        return Some(NOTHING);
      }
      var r := Resolve(contacts, k, read);
      contacts := r.contacts;
      var done, created, reactivated := PromoteDestinations(r.organization, ds);
      report := if done then Some(Report(r.supportCreated, r.attached, created, reactivated)) else None;
    }

    /** `_backfill_correspondent_recipients_impl`; `None` is an exception. */
    method Run() returns (summary: Option<Summary>)
      requires WellFormed(Now(), destinations)
      modifies this`contacts, this`rows
      ensures match Pass(old(Now()), destinations, check)
        case Aborted => summary.None?
        case Completed(state, sum) => summary == Some(sum) && Now() == state
    {
      var read := contacts;
      CorrespondentsExist(Now(), destinations);
      var ks := Correspondents(destinations);
      var sum := NONE;
      while ks != []
        invariant (forall k :: k in ks ==> k in read) && read.Keys <= contacts.Keys
        invariant PassFrom(Now(), ks, read, sum, destinations, check) == Pass(old(Now()), destinations, check)
        decreases |ks|
      {
        var k := ks[0];
        assert k in ks;
        ghost var now := Now();
        var report := Promote(k, read[k]);
        if report.None? { return None; }
        ContactsGrow(now, k, read[k], destinations, check);
        sum := sum.Add(report.value);
        ks := ks[1..];
      }
      summary := Some(sum);
    }

    /** `backfill_correspondent_recipients`: a dry run tells what would happen and is rolled back. */
    method RunOrRehearse(dryRun: bool) returns (summary: Option<Summary>)
      requires WellFormed(Now(), destinations)
      modifies this`contacts, this`rows
      ensures match Pass(old(Now()), destinations, check)
        case Aborted => summary.None?
        case Completed(state, sum) => summary == Some(sum) && (!dryRun ==> Now() == state)
      ensures dryRun ==> Now() == old(Now())
    {
      var savepoint := Now();
      summary := Run();
      if dryRun {
        contacts, rows := savepoint.contacts, savepoint.rows;
      }
    }
  }

  /** What a promotion reports on top of what was reported before. */
  function After(p: Promotion, created: bool, reactivated: bool): Promotion {
    match p
    case Denied => Denied
    case Promoted(rows, created', reactivated') => Promoted(rows, created || created', reactivated || reactivated')
  }
}
