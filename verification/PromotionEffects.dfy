/** What promotions leave of the rows and the contacts, told without the loops, and what the summary of a pass counts
    (contacts/correspondent_recipient_promotion.py). */
module PromotionEffects {
  import opened Ids
  import opened ContactBook
  import opened RegistryTables
  import opened RegistryWrites
  import opened CorrespondentPromotion

  // ---------------------------------------------------------------- one organization

  ghost predicate OwnRow(rows: Organizations, id: Id, organization: Id) {
    id in rows && rows[id].organization == organization
  }

  /** Where the organization's row stands after a promotion. A missing row is created at the first destination; an
      inactive one moves there. An active one stays where it is,
        and is ready only if that is one of the destinations. */
  ghost predicate PromotedRow(before: Organizations, after: Organizations, organization: Id, ds: seq<Id>, own: Id) {
    && OwnRow(after, own, organization) && ds != []
    && (!OwnRow(before, own, organization) ==>
          own !in before && IsReady(after[own]) && after[own].destination == ds[0])
    && (OwnRow(before, own, organization) && !before[own].active ==>
          IsReady(after[own]) && after[own].destination == ds[0])
    && (OwnRow(before, own, organization) && before[own].active && before[own].destination in ds ==>
          IsReady(after[own]) && after[own].destination == before[own].destination)
    && (OwnRow(before, own, organization) && before[own].active && before[own].destination !in ds ==>
          after[own] == before[own])
  }

  /** Rows of other organizations stay as they are, and none is new. */
  ghost predicate OthersStay(before: Organizations, after: Organizations, organization: Id) {
    && (forall id :: id in before && before[id].organization != organization ==> id in after && after[id] == before[id])
    && (forall id :: id in after && after[id].organization != organization ==> id in before)
    && (forall id :: OwnRow(before, id, organization) ==> OwnRow(after, id, organization))
  }

  lemma OnlyRow(rows: Organizations, organization: Id, own: Id)
    requires UniqueOrganizations(rows) && OwnRow(rows, own, organization)
    ensures OrganizationFor(rows, organization) == Some(own)
    ensures forall id :: OwnRow(rows, id, organization) ==> id == own
  {
    var found := OrganizationFor(rows, organization);
    assert SameOrganization(rows, own, found.value);
    assert forall id :: OwnRow(rows, id, organization) ==> SameOrganization(rows, own, id);
  }

  lemma ReadyIsIdle(contacts: Contacts, rows: Organizations, organization: Id, ds: seq<Id>, check: Check, own: Id)
    requires UniqueOrganizations(rows) && OwnRow(rows, own, organization) && IsReady(rows[own])
    ensures PromoteAll(contacts, rows, organization, ds, check) == Promoted(rows, false, false)
  {
    OnlyRow(rows, organization, own);
    assert forall id :: id in rows && rows[id].organization == organization ==> OwnRow(rows, id, organization);
    FinishedIsIdle(contacts, rows, organization, ds, check);
  }

  /** One destination. */
  lemma PromotedFirst(contacts: Contacts, rows: Organizations, organization: Id, d: Id, check: Check) returns (own: Id)
    requires UniqueOrganizations(rows) && PromoteAt(contacts, rows, organization, d, check).Promoted?
    ensures var after := PromoteAt(contacts, rows, organization, d, check).rows;
      && PromotedRow(rows, after, organization, [d], own) && OthersStay(rows, after, organization)
      && UniqueOrganizations(after) && (!IsReady(after[own]) ==> after == rows)
    ensures forall id :: OwnRow(rows, id, organization) ==> id == own
  {
    var found := OrganizationFor(rows, organization);
    PromotedAt(contacts, rows, organization, d, check);
    own := if found.None? then FreshId(rows.Keys) else found.value;
    if found.Some? {
      OnlyRow(rows, organization, own);
    }
  }

  /** A promotion at any number of destinations, in closed form. */
  lemma {:induction false} PromotedExactly(
    contacts: Contacts, rows: Organizations, organization: Id, ds: seq<Id>, check: Check) returns (own: Id)
    requires UniqueOrganizations(rows) && ds != [] && PromoteAll(contacts, rows, organization, ds, check).Promoted?
    ensures var after := PromoteAll(contacts, rows, organization, ds, check).rows;
      PromotedRow(rows, after, organization, ds, own) && OthersStay(rows, after, organization)
    ensures forall id :: OwnRow(rows, id, organization) ==> id == own
    decreases |ds|
  {
    var first, rest := PromoteAt(contacts, rows, organization, ds[0], check), ds[1..];
    own := PromotedFirst(contacts, rows, organization, ds[0], check);
    assert forall d :: d in ds <==> d == ds[0] || d in rest;
    if IsReady(first.rows[own]) {
      ReadyIsIdle(contacts, first.rows, organization, rest, check, own);
    } else if rest != [] {
      var other := PromotedExactly(contacts, rows, organization, rest, check);
    }
  }

  /** A validation that refuses nothing denies no promotion. */
  lemma {:induction false} NeverDenied(
    contacts: Contacts, rows: Organizations, organization: Id, ds: seq<Id>, check: Check)
    requires forall cs, rs, id, row :: check(cs, rs, id, row)
    ensures PromoteAll(contacts, rows, organization, ds, check).Promoted?
    decreases |ds|
  {
    if ds != [] {
      var first := PromoteAt(contacts, rows, organization, ds[0], check);
      NeverDenied(contacts, first.rows, organization, ds[1..], check);
    }
  }

  // ---------------------------------------------------------------- the organization of a correspondent

  /** A support organization bears the name in any mixture of cases. */
  lemma SupportIff(c: Contact)
    ensures IsSupport(c) <==>
      && c.kind.Organization? && |c.name| == |SUPPORT_NAME|
      && forall i :: 0 <= i < |c.name| ==> Text.LowerChar(c.name[i]) == Text.LowerChar(SUPPORT_NAME[i])
  {
    var name, wanted := Text.Upper(c.name), Text.Upper(SUPPORT_NAME);
    if |c.name| == |SUPPORT_NAME| {
      forall i | 0 <= i < |c.name|
        ensures name[i] == wanted[i] <==> Text.LowerChar(c.name[i]) == Text.LowerChar(SUPPORT_NAME[i])
      {
        Text.CasesCorrespond(c.name[i]);
        Text.CasesCorrespond(SUPPORT_NAME[i]);
      }
    }
  }

  /** Notes that lack the marker keep their text and get the marker on a line of its own. */
  lemma MarkedTells(notes: string, marker: string)
    requires marker != "" && Text.Trimmed(marker)
    ensures Contains(Text.Strip(notes), marker) ==> Marked(notes, marker) == notes
    ensures Text.Strip(notes) == "" ==> Marked(notes, marker) == marker
    ensures !Contains(Text.Strip(notes), marker) && Text.Strip(notes) != "" ==>
      Marked(notes, marker) == Text.Strip(notes) + "\n" + marker
  {
    var stripped := Text.Strip(notes);
    Text.StripTrims(notes);
    if stripped != "" {
      var whole := stripped + "\n" + marker;
      assert whole[0] == stripped[0] && whole[|whole| - 1] == marker[|marker| - 1];
      Text.StripTrims(whole);
    } else {
      assert !Contains("", marker);
    }
  }

  lemma MarkerIsPlain()
    ensures MARKER != "" && Text.Trimmed(MARKER) && Text.Strip(MARKER) == MARKER && Contains(MARKER, MARKER)
  {
    assert |MARKER| == 53 && MARKER[0] == "[system] "[0] && MARKER[52] == "organization"[11];
    Text.StripTrims(MARKER);
  }

  ghost predicate NotesMarked(texts: map<Field, string>) {
    Notes in texts && Contains(Text.Strip(texts[Notes]), MARKER)
  }

  lemma TextsMarked(texts: map<Field, string>)
    ensures NotesMarked(MarkedTexts(texts))
    ensures forall f :: f != Notes ==>
      (f in MarkedTexts(texts) <==> f in texts) && (f in texts ==> MarkedTexts(texts)[f] == texts[f])
  {
    MarkerIsPlain();
    var notes := if Notes in texts then texts[Notes] else "";
    MarkedOnce(notes, MARKER);
    assert Text.Strip("") == "" && !Contains("", MARKER);
  }

  /** The notes of the support organization, once it was looked for, hold the marker; its other texts stay. */
  lemma SupportNotes(contacts: Contacts)
    ensures var r := WithSupport(contacts);
      && NotesMarked(r.contacts[r.organization].texts)
      && (r.organization in contacts ==>
            forall f :: f != Notes ==>
              (f in r.contacts[r.organization].texts <==> f in contacts[r.organization].texts)
              && (f in contacts[r.organization].texts ==>
                    r.contacts[r.organization].texts[f] == contacts[r.organization].texts[f]))
  {
    var found := ExistingSupport(contacts);
    if found.Some? {
      TextsMarked(contacts[found.value].texts);
    } else {
      MarkerIsPlain();
      NewIsMarked();
    }
  }

  lemma NewIsMarked()
    ensures NotesMarked(map[Notes := MARKER])
  {
    MarkerIsPlain();
  }

  /** There is a support organization exactly when one is found or made. */
  lemma SupportTells(contacts: Contacts)
    ensures var r := WithSupport(contacts);
      && IsSupport(r.contacts[r.organization]) && r.contacts[r.organization].active
      && (r.supportCreated <==> forall c :: c in contacts ==> !IsSupport(contacts[c]))
      && (r.supportCreated <==> r.organization !in contacts) && !r.attached
      && (r.organization in contacts ==>
            var before, now := contacts[r.organization], r.contacts[r.organization];
            IsSupport(before) && now.name == before.name && now.organization == before.organization
            && now.useOrganizationAddress == before.useOrganizationAddress)
  {
    if ExistingSupport(contacts).Some? { FoundIsSupport(contacts); }
    forall c | c in contacts && IsSupport(contacts[c]) ensures ExistingSupport(contacts).Some? {
      SupportChosen(contacts, c);
    }
  }

  /** Which organization carries a correspondent, and what finding it changes. An organization carries itself; a person
      with an organization is carried by that, which becomes active; anybody else is attached to the support
      organization. */
  lemma ResolvedTells(contacts: Contacts, k: Id, read: Contact)
    requires k in contacts && contacts[k].kind == read.kind && (read.kind.Person? ==> contacts[k] == read)
    ensures var r := Resolve(contacts, k, read);
      && (read.kind.Organization? ==> r.organization == k && r.contacts == contacts && !r.supportCreated && !r.attached)
      && (read.kind.Person? && Placed(contacts, read) ==>
            && Some(r.organization) == read.organization && r.organization in contacts
            && r.contacts == contacts[r.organization := contacts[r.organization].(active := true)]
            && !r.supportCreated && !r.attached)
      && (read.kind.Person? && !Placed(contacts, read) ==>
            && r.organization in r.contacts && IsSupport(r.contacts[r.organization])
            && r.contacts[r.organization].active
            && (r.supportCreated <==> r.organization !in contacts)
            && (r.attached <==> contacts[k].organization != Some(r.organization))
            && k in r.contacts && r.contacts[k] == contacts[k].(organization := Some(r.organization))
            && r.contacts.Keys == contacts.Keys + {r.organization}
            && forall c :: c in contacts && c != k && c != r.organization ==> r.contacts[c] == contacts[c])
  {
    if read.kind.Person? && !Placed(contacts, read) {
      SupportTells(contacts);
      var support := WithSupport(contacts);
      assert support.organization != k;
      assert read.organization == Some(support.organization) ==>
        contacts[k].(organization := Some(support.organization)) == contacts[k];
    }
  }

  // ---------------------------------------------------------------- one pass

  /** What every pass, or rest of a pass, starts from. */
  ghost predicate Passable(s: State, ks: seq<Id>, read: Contacts, destinations: Destinations) {
    && Ascending(ks) && (forall k :: k in ks ==> k in read && DestinationsOf(destinations, k) != [])
    && UniqueOrganizations(s.rows) && ContactsKept(read, s.contacts, ks) && ActivatedHaveRows(read, s)
  }

  lemma PassStarts(s: State, destinations: Destinations)
    requires WellFormed(s, destinations) && UniqueOrganizations(s.rows)
    ensures Passable(s, Correspondents(destinations), s.contacts, destinations)
  {
    CorrespondentsExist(s, destinations);
  }

  lemma RestPassable(s: State, ks: seq<Id>, read: Contacts, destinations: Destinations, check: Check)
    requires Passable(s, ks, read, destinations) && ks != []
    requires PromoteContact(s, ks[0], read[ks[0]], destinations, check).Went?
    ensures ks[0] in ks && ks[0] in s.contacts && ks[0] !in ks[1..]
    ensures var after := PromoteContact(s, ks[0], read[ks[0]], destinations, check).state;
      Passable(after, ks[1..], read, destinations) && RowsKept(s.rows, after.rows)
  {
    assert ks == [ks[0]] + ks[1..] && ks[0] in ks && forall k :: k in ks[1..] ==> k in ks;
    RoundOfPass(s, ks[0], ks[1..], read, destinations, check);
  }

  /** The row is active and was not. */
  ghost predicate NewlyActive(before: Organizations, after: Organizations, id: Id) {
    id in after && after[id].active && !(id in before && before[id].active)
  }

  /** The row was made active here: it is ready at the first destination. */
  lemma PromotionPlaces(
    contacts: Contacts, rows: Organizations, organization: Id, ds: seq<Id>, check: Check, id: Id)
    requires UniqueOrganizations(rows) && ds != [] && PromoteAll(contacts, rows, organization, ds, check).Promoted?
    ensures var after := PromoteAll(contacts, rows, organization, ds, check).rows;
      NewlyActive(rows, after, id) ==>
        OwnRow(after, id, organization) && IsReady(after[id]) && after[id].destination == ds[0]
  {
    var own := PromotedExactly(contacts, rows, organization, ds, check);
    PromotedAll(contacts, rows, organization, ds, check);
    var after := PromoteAll(contacts, rows, organization, ds, check).rows;
    OnlyRow(after, organization, own);
    assert id in after && after[id].organization == organization ==> OwnRow(after, id, organization);
    assert id in rows && rows[id].organization == organization ==> OwnRow(rows, id, organization);
  }

  /** The row was made active for this correspondent: it is ready and stands at the first of its destinations. */
  ghost predicate PlacedFor(after: State, id: Id, k: Id, read: Contacts, destinations: Destinations) {
    && k in read && read[k].active && k in after.contacts && id in after.rows && IsReady(after.rows[id])
    && DestinationsOf(destinations, k) != [] && after.rows[id].destination == DestinationsOf(destinations, k)[0]
    && OrganizationOf(after.contacts, k) == Some(after.rows[id].organization)
  }

  lemma RoundPlaces(s: State, ks: seq<Id>, read: Contacts, destinations: Destinations, check: Check, id: Id)
    requires Passable(s, ks, read, destinations) && ks != []
    requires PromoteContact(s, ks[0], read[ks[0]], destinations, check).Went?
    ensures var after := PromoteContact(s, ks[0], read[ks[0]], destinations, check).state;
      NewlyActive(s.rows, after.rows, id) ==> PlacedFor(after, id, ks[0], read, destinations)
  {
    var k := ks[0];
    RestPassable(s, ks, read, destinations, check);
    if read[k].active {
      var r := Resolve(s.contacts, k, read[k]);
      CorrespondentPromotion.Resolved(s.contacts, k, read[k]);
      PromotionPlaces(r.contacts, s.rows, r.organization, DestinationsOf(destinations, k), check, id);
    }
  }

  /** Who is not visited any more keeps the organization it is carried by. */
  lemma {:induction false} OrganizationStays(
    s: State, ks: seq<Id>, read: Contacts, sum: Summary, destinations: Destinations, check: Check, j: Id)
    requires Passable(s, ks, read, destinations) && j in s.contacts && j !in ks
    requires PassFrom(s, ks, read, sum, destinations, check).Completed?
    ensures var after := PassFrom(s, ks, read, sum, destinations, check).state;
      && j in after.contacts && OrganizationOf(after.contacts, j) == OrganizationOf(s.contacts, j)
      && (s.contacts[j].kind.Person? ==> after.contacts[j] == s.contacts[j])
    decreases |ks|
  {
    if ks != [] {
      var went := PromoteContact(s, ks[0], read[ks[0]], destinations, check);
      RestPassable(s, ks, read, destinations, check);
      if read[ks[0]].active { CorrespondentPromotion.Resolved(s.contacts, ks[0], read[ks[0]]); }
      assert j != ks[0];
      OrganizationStays(went.state, ks[1..], read, sum.Add(went.report), destinations, check, j);
    }
  }

  /** No smaller correspondent of those is carried by the organization. */
  ghost predicate FirstFor(ks: seq<Id>, k: Id, read: Contacts, contacts: Contacts, organization: Id) {
    forall j :: j in ks && j < k && j in read && read[j].active && j in contacts ==>
      OrganizationOf(contacts, j) != Some(organization)
  }

  /** Whatever row a pass creates or reactivates is ready, and stands at the first destination of the first of the
      correspondents that its organization carries. */
  lemma {:induction false} PassPlaces(
    s: State, ks: seq<Id>, read: Contacts, sum: Summary, destinations: Destinations, check: Check, id: Id)
    returns (k: Id)
    requires Passable(s, ks, read, destinations)
    requires PassFrom(s, ks, read, sum, destinations, check).Completed?
    requires NewlyActive(s.rows, PassFrom(s, ks, read, sum, destinations, check).state.rows, id)
    ensures var after := PassFrom(s, ks, read, sum, destinations, check).state;
      k in ks && PlacedFor(after, id, k, read, destinations)
      && FirstFor(ks, k, read, after.contacts, after.rows[id].organization)
    decreases |ks|
  {
    var first, rest := ks[0], ks[1..];
    var went := PromoteContact(s, first, read[first], destinations, check);
    var after := PassFrom(s, ks, read, sum, destinations, check).state;
    RestPassable(s, ks, read, destinations, check);
    AfterPass(went.state, rest, read, sum.Add(went.report), destinations, check);
    OrganizationStays(went.state, rest, read, sum.Add(went.report), destinations, check, first);
    if NewlyActive(s.rows, went.state.rows, id) {
      RoundPlaces(s, ks, read, destinations, check, id);
      k := first;
      assert forall j :: j in ks ==> j >= first;
    } else {
      k := PassPlaces(went.state, rest, read, sum.Add(went.report), destinations, check, id);
      assert k in ks;
      if read[first].active {
        FirstSettled(s, ks, read, destinations, check);
        CarriedElsewhere(went.state, after, first, destinations, id);
      }
    }
  }

  /** A row made active later is not of an organization that was visited already. */
  lemma CarriedElsewhere(now: State, after: State, j: Id, destinations: Destinations, id: Id)
    requires Settled(now, j, destinations) && RowsKept(now.rows, after.rows) && UniqueOrganizations(after.rows)
    requires NewlyActive(now.rows, after.rows, id) && j in after.contacts
    requires OrganizationOf(after.contacts, j) == OrganizationOf(now.contacts, j)
    ensures OrganizationOf(after.contacts, j) != Some(after.rows[id].organization)
  {
    var o := OrganizationOf(now.contacts, j).value;
    var own :| own in now.rows && now.rows[own].organization == o && now.rows[own].active;
    assert SameOrganization(after.rows, own, id) ==> own == id;
  }

  lemma FirstSettled(s: State, ks: seq<Id>, read: Contacts, destinations: Destinations, check: Check)
    requires Passable(s, ks, read, destinations) && ks != [] && read[ks[0]].active
    requires PromoteContact(s, ks[0], read[ks[0]], destinations, check).Went?
    ensures Settled(PromoteContact(s, ks[0], read[ks[0]], destinations, check).state, ks[0], destinations)
  {
    assert ks == [ks[0]] + ks[1..] && ks[0] in ks;
    RoundOfPass(s, ks[0], ks[1..], read, destinations, check);
  }

  // ---------------------------------------------------------------- what the summary counts

  ghost function Reactivated(before: Organizations, after: Organizations): set<Id> {
    set id | id in before && !before[id].active && id in after && after[id].active
  }

  ghost function Attached(before: Contacts, after: Contacts): set<Id> {
    set c | c in before && c in after && before[c].organization != after[c].organization
  }

  function One(b: bool): nat {
    if b then 1 else 0
  }

  lemma KeysCounted<Row>(before: map<Id, Row>, after: map<Id, Row>, k: Id)
    requires after.Keys == before.Keys + {k}
    ensures |after| == |before| + One(k !in before)
  {
    if k in before { assert before.Keys + {k} == before.Keys; }
    assert |after.Keys| == |before.Keys| + One(k !in before);
    assert |after| == |after.Keys| && |before| == |before.Keys|;
  }

  lemma RowsCounted(before: Organizations, after: Organizations, organization: Id, ds: seq<Id>, own: Id)
    requires PromotedRow(before, after, organization, ds, own) && OthersStay(before, after, organization)
    requires forall id :: OwnRow(before, id, organization) ==> id == own
    requires forall id :: OwnRow(after, id, organization) ==> id == own
    ensures |after| == |before| + One(own !in before)
    ensures Reactivated(before, after) == if own in before && !before[own].active then {own} else {}
    ensures forall id :: id in after && id !in before ==> after[id].active
  {
    forall id | id in before && id != own ensures id in after && after[id] == before[id] {
      assert !OwnRow(before, id, organization);
    }
    forall id | id in after && id != own ensures id in before {
      assert !OwnRow(after, id, organization);
    }
    KeysCounted(before, after, own);
  }

  /** One promotion reports the row it created or reactivated. */
  lemma PromotionCounts(contacts: Contacts, rows: Organizations, organization: Id, ds: seq<Id>, check: Check)
    requires UniqueOrganizations(rows) && ds != [] && PromoteAll(contacts, rows, organization, ds, check).Promoted?
    ensures var p := PromoteAll(contacts, rows, organization, ds, check);
      && |p.rows| == |rows| + One(p.created) && |Reactivated(rows, p.rows)| == One(p.reactivated)
      && (forall id :: id in p.rows && id !in rows ==> p.rows[id].active)
  {
    var p := PromoteAll(contacts, rows, organization, ds, check);
    var own := PromotedExactly(contacts, rows, organization, ds, check);
    ReportsTell(contacts, rows, organization, ds, check);
    PromotedAll(contacts, rows, organization, ds, check);
    OnlyRow(p.rows, organization, own);
    RowsCounted(rows, p.rows, organization, ds, own);
    FoundIff(rows, organization, own);
  }

  lemma FoundIff(rows: Organizations, organization: Id, own: Id)
    requires UniqueOrganizations(rows) && (own in rows ==> rows[own].organization == organization)
    requires forall id :: OwnRow(rows, id, organization) ==> id == own
    ensures OrganizationFor(rows, organization) == if own in rows then Some(own) else None
  {
    if own in rows { OnlyRow(rows, organization, own); } else { NoRowFor(rows, organization); }
  }

  lemma NoRowFor(rows: Organizations, organization: Id)
    requires forall id :: !OwnRow(rows, id, organization)
    ensures OrganizationFor(rows, organization).None?
  {
    var found := OrganizationFor(rows, organization);
    assert found.Some? ==> OwnRow(rows, found.value, organization);
  }

  lemma ContactsCounted(before: Contacts, after: Contacts, k: Id, o: Id)
    requires after.Keys == before.Keys + {o} && k in before
    requires forall c :: c in before && c != k ==> after[c].organization == before[c].organization
    ensures |after| == |before| + One(o !in before)
    ensures Attached(before, after) == if before[k].organization != after[k].organization then {k} else {}
  {
    KeysCounted(before, after, o);
  }

  /** One resolution reports the support organization it made and the person it attached. */
  lemma ResolutionCounts(contacts: Contacts, k: Id, read: Contact)
    requires k in contacts && contacts[k].kind == read.kind && (read.kind.Person? ==> contacts[k] == read)
    ensures var r := Resolve(contacts, k, read);
      && |r.contacts| == |contacts| + One(r.supportCreated)
      && Attached(contacts, r.contacts) == if r.attached then {k} else {}
  {
    var r := Resolve(contacts, k, read);
    ResolvedTells(contacts, k, read);
    if read.kind.Person? && !Placed(contacts, read) {
      SupportKeepsOrganization(contacts, k, read);
    }
    ContactsCounted(contacts, r.contacts, k, r.organization);
  }

  lemma SupportKeepsOrganization(contacts: Contacts, k: Id, read: Contact)
    requires k in contacts && contacts[k] == read && read.kind.Person? && !Placed(contacts, read)
    ensures var r := Resolve(contacts, k, read);
      r.organization in contacts ==>
        r.organization in r.contacts && r.organization != k
        && r.contacts[r.organization].organization == contacts[r.organization].organization
  {
    SupportTells(contacts);
  }

  /** What one visit reports is what it did. */
  ghost predicate Reported(before: State, after: State, report: Report, k: Id) {
    && |after.rows| == |before.rows| + One(report.created)
    && |Reactivated(before.rows, after.rows)| == One(report.reactivated)
    && |after.contacts| == |before.contacts| + One(report.supportCreated)
    && Attached(before.contacts, after.contacts) == (if report.attached then {k} else {})
    && (forall id :: id in after.rows && id !in before.rows ==> after.rows[id].active)
  }

  lemma VisitCounts(s: State, ks: seq<Id>, read: Contacts, destinations: Destinations, check: Check)
    requires Passable(s, ks, read, destinations) && ks != []
    requires PromoteContact(s, ks[0], read[ks[0]], destinations, check).Went?
    ensures var went := PromoteContact(s, ks[0], read[ks[0]], destinations, check);
      Reported(s, went.state, went.report, ks[0])
  {
    var k := ks[0];
    RestPassable(s, ks, read, destinations, check);
    if read[k].active {
      var r := Resolve(s.contacts, k, read[k]);
      ResolutionCounts(s.contacts, k, read[k]);
      PromotionCounts(r.contacts, s.rows, r.organization, DestinationsOf(destinations, k), check);
    } else {
      assert Reactivated(s.rows, s.rows) == {} && Attached(s.contacts, s.contacts) == {};
    }
  }

  lemma VisitKeepsOrganization(
    s: State, ks: seq<Id>, read: Contacts, destinations: Destinations, check: Check, c: Id)
    requires Passable(s, ks, read, destinations) && ks != [] && c in s.contacts && c != ks[0]
    requires PromoteContact(s, ks[0], read[ks[0]], destinations, check).Went?
    ensures var after := PromoteContact(s, ks[0], read[ks[0]], destinations, check).state;
      c in after.contacts && after.contacts[c].organization == s.contacts[c].organization
  {
    RestPassable(s, ks, read, destinations, check);
    ContactsGrow(s, ks[0], read[ks[0]], destinations, check);
    VisitCounts(s, ks, read, destinations, check);
    var after := PromoteContact(s, ks[0], read[ks[0]], destinations, check).state;
    assert c !in Attached(s.contacts, after.contacts);
  }

  /** Whoever is not visited any more keeps the organization it is a member of. */
  lemma {:induction false} MembershipStays(
    s: State, ks: seq<Id>, read: Contacts, sum: Summary, destinations: Destinations, check: Check, c: Id)
    requires Passable(s, ks, read, destinations) && c in s.contacts && c !in ks
    requires PassFrom(s, ks, read, sum, destinations, check).Completed?
    ensures var after := PassFrom(s, ks, read, sum, destinations, check).state;
      c in after.contacts && after.contacts[c].organization == s.contacts[c].organization
    decreases |ks|
  {
    if ks != [] {
      var went := PromoteContact(s, ks[0], read[ks[0]], destinations, check);
      RestPassable(s, ks, read, destinations, check);
      VisitKeepsOrganization(s, ks, read, destinations, check, c);
      MembershipStays(went.state, ks[1..], read, sum.Add(went.report), destinations, check, c);
    }
  }

  lemma ReactivatedAddUp(before: Organizations, between: Organizations, after: Organizations)
    requires RowsKept(before, between) && RowsKept(between, after)
    requires forall id :: id in between && id !in before ==> between[id].active
    ensures |Reactivated(before, after)| == |Reactivated(before, between)| + |Reactivated(between, after)|
  {
    var first, second := Reactivated(before, between), Reactivated(between, after);
    assert first !! second;
    assert Reactivated(before, after) == first + second;
  }

  lemma AttachedAddUp(before: Contacts, between: Contacts, after: Contacts, k: Id)
    requires before.Keys <= between.Keys <= after.Keys && Attached(before, between) <= {k}
    requires k in between ==> after[k].organization == between[k].organization
    requires forall c :: c in between && c !in before ==> after[c].organization == between[c].organization
    ensures |Attached(before, after)| == |Attached(before, between)| + |Attached(between, after)|
  {
    var first, second := Attached(before, between), Attached(between, after);
    assert first !! second;
    forall c ensures c in Attached(before, after) <==> c in first + second {
    }
    assert Attached(before, after) == first + second;
  }

  /** What the summary of a pass counts: the visits, the rows and the support organization that are new, the rows that
      were inactive and are active, and the persons that have another organization. */
  lemma {:induction false} PassCounts(
    s: State, ks: seq<Id>, read: Contacts, sum: Summary, destinations: Destinations, check: Check)
    requires Passable(s, ks, read, destinations)
    requires PassFrom(s, ks, read, sum, destinations, check).Completed?
    ensures var p := PassFrom(s, ks, read, sum, destinations, check);
      && s.contacts.Keys <= p.state.contacts.Keys
      && p.summary.processed == sum.processed + |ks|
      && p.summary.created == sum.created + |p.state.rows| - |s.rows|
      && p.summary.reactivated == sum.reactivated + |Reactivated(s.rows, p.state.rows)|
      && p.summary.supportCreated == sum.supportCreated + |p.state.contacts| - |s.contacts|
      && p.summary.attached == sum.attached + |Attached(s.contacts, p.state.contacts)|
    decreases |ks|
  {
    if ks == [] {
      assert Reactivated(s.rows, s.rows) == {} && Attached(s.contacts, s.contacts) == {};
    } else {
      var went := PromoteContact(s, ks[0], read[ks[0]], destinations, check);
      var now, last := went.state, PassFrom(s, ks, read, sum, destinations, check).state;
      RestPassable(s, ks, read, destinations, check);
      ContactsGrow(s, ks[0], read[ks[0]], destinations, check);
      VisitCounts(s, ks, read, destinations, check);
      PassCounts(now, ks[1..], read, sum.Add(went.report), destinations, check);
      AfterPass(now, ks[1..], read, sum.Add(went.report), destinations, check);
      ReactivatedAddUp(s.rows, now.rows, last.rows);
      MembershipStays(now, ks[1..], read, sum.Add(went.report), destinations, check, ks[0]);
      NewContactsStay(s, ks, read, sum, destinations, check);
      AttachedAddUp(s.contacts, now.contacts, last.contacts, ks[0]);
    }
  }

  lemma NewContactsStay(s: State, ks: seq<Id>, read: Contacts, sum: Summary, destinations: Destinations, check: Check)
    requires Passable(s, ks, read, destinations) && ks != []
    requires PassFrom(s, ks, read, sum, destinations, check).Completed?
    ensures var now, last := PromoteContact(s, ks[0], read[ks[0]], destinations, check).state,
        PassFrom(s, ks, read, sum, destinations, check).state;
      forall c :: c in now.contacts && c !in s.contacts ==>
        c in last.contacts && last.contacts[c].organization == now.contacts[c].organization
  {
    var went := PromoteContact(s, ks[0], read[ks[0]], destinations, check);
    var now, last := went.state, PassFrom(s, ks, read, sum, destinations, check).state;
    RestPassable(s, ks, read, destinations, check);
    forall c | c in now.contacts && c !in s.contacts
      ensures c in last.contacts && last.contacts[c].organization == now.contacts[c].organization
    {
      assert c !in read;
      MembershipStays(now, ks[1..], read, sum.Add(went.report), destinations, check, c);
    }
  }

  /** The visits that changed something: no fewer than any kind of change, no more than all of them or than there were
      visits. */
  lemma {:induction false} ChangedBetween(
    s: State, ks: seq<Id>, read: Contacts, sum: Summary, destinations: Destinations, check: Check)
    requires (forall k :: k in ks ==> k in read) && read.Keys <= s.contacts.Keys
    requires PassFrom(s, ks, read, sum, destinations, check).Completed?
    ensures var more := PassFrom(s, ks, read, sum, destinations, check).summary;
      && more.supportCreated - sum.supportCreated <= more.changed - sum.changed
      && more.attached - sum.attached <= more.changed - sum.changed
      && more.created - sum.created <= more.changed - sum.changed
      && more.reactivated - sum.reactivated <= more.changed - sum.changed
      && more.changed - sum.changed <= more.processed - sum.processed
      && more.changed - sum.changed
           <= (more.supportCreated - sum.supportCreated) + (more.attached - sum.attached)
              + (more.created - sum.created) + (more.reactivated - sum.reactivated)
    decreases |ks|
  {
    if ks != [] {
      assert ks[0] in ks;
      var went := PromoteContact(s, ks[0], read[ks[0]], destinations, check);
      ContactsGrow(s, ks[0], read[ks[0]], destinations, check);
      ChangedBetween(went.state, ks[1..], read, sum.Add(went.report), destinations, check);
    }
  }

  /** Who is visited, and for which destinations. */
  lemma VisitedAre(destinations: Destinations, k: Id)
    ensures k in Correspondents(destinations) <==>
      exists d :: d in destinations && destinations[d].active && destinations[d].correspondent == k
    ensures forall d :: d in DestinationsOf(destinations, k) <==>
      d in destinations && destinations[d].active && destinations[d].correspondent == k
    ensures Ascending(Correspondents(destinations)) && Ascending(DestinationsOf(destinations, k))
  {
  }

  /** The summary of a whole pass. */
  lemma BackfillCounts(s: State, destinations: Destinations, check: Check)
    requires WellFormed(s, destinations) && UniqueOrganizations(s.rows) && Pass(s, destinations, check).Completed?
    ensures var p := Pass(s, destinations, check);
      && p.summary.processed == |Correspondents(destinations)|
      && p.summary.created == |p.state.rows| - |s.rows|
      && p.summary.reactivated == |Reactivated(s.rows, p.state.rows)|
      && p.summary.supportCreated == |p.state.contacts| - |s.contacts|
      && p.summary.attached == |Attached(s.contacts, p.state.contacts)|
  {
    PassStarts(s, destinations);
    PassCounts(s, Correspondents(destinations), s.contacts, NONE, destinations, check);
  }

  /** Whatever row a whole pass creates or reactivates is ready at the first destination of the first correspondent that
      its organization carries. */
  lemma BackfillPlaces(s: State, destinations: Destinations, check: Check, id: Id) returns (k: Id)
    requires WellFormed(s, destinations) && UniqueOrganizations(s.rows) && Pass(s, destinations, check).Completed?
    requires NewlyActive(s.rows, Pass(s, destinations, check).state.rows, id)
    ensures var after := Pass(s, destinations, check).state;
      PlacedFor(after, id, k, s.contacts, destinations)
      && FirstFor(Correspondents(destinations), k, s.contacts, after.contacts, after.rows[id].organization)
  {
    PassStarts(s, destinations);
    k := PassPlaces(s, Correspondents(destinations), s.contacts, NONE, destinations, check, id);
  }
}
