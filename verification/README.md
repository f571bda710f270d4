# Verified models of the warehouse and contact algorithms

This project models, in Dafny, the relational and stateful algorithms of a humanitarian warehouse application: merging
contacts, flattening kits, the e-mail queue, destination codes, ready cartons, promoting correspondents, throttling
account requests and versioning print templates. Database tables are maps from keys to rows, objects that are updated
in place are classes, and each operation is proved against a specification of what the application relies on.

    dafny verify dfyconfig.toml

## Parts

| files | subject |
|---|---|
| `Ids`, `Listings`, `Text`, `Decimal`, `Quantities`, `Cartons` | keys and query order, what is picked from a list, text operations, decimal notation, dictionaries of quantities, cartons |
| `ContactBook` | contacts and addresses with their save hooks |
| `ContactDetails`, `RegistryTables`, `RegistrySteps`, `RegistryWrites`, `LinkJoin`, `AuthorizationMerge`, `LinkMerge`, `RegistryEntries`, `ShipperMerge`, `RecipientMerge`, `RecipientTransfer`, `OrganizationMerge`, `ContactMerge`, `MergeEffects`, `MergeWitnesses` | merging one contact into another |
| `KitComponents`, `KitStock` | expanding kits, reading kits back from cartons |
| `EmailQueue`, `EmailClaims` | one run of the e-mail queue; runs that interleave, stall and crash |
| `DestinationCodes` | unique codes for imported destinations |
| `Signatures`, `ProductLines`, `ReadyCartons`, `CartonDispatch` | grouping, selecting and assigning ready cartons |
| `CorrespondentPromotion`, `PromotionEffects` | making correspondents ready as recipients |
| `Throttle` | the two-key reservation of account requests |
| `PackVersions` | snapshots and restores of print templates |

Methods are proved against functions, and what such a function computes is stated once more without it: as the columns
of each row that is left (`MergeEffects`, `PromotionEffects`, lemmas that end in `Tells`), as the members of a list that
satisfy a condition, in order (`Listings.Picked`), or as a number that is conserved.

## How the merge is proved

The five shipment-party tables encode a relation over contacts: which organizations ship, which receive and where,
which persons are recipient contacts, which (shipper, recipient, person) triples are authorized, active or default.
`RegistryTables.View` is that relation without row keys. A merge must turn it into itself with the source renamed to the
target. Several invariants break between the loops (an authorization may name a contact of another organization, two
rows may stand for one), so the loops keep `RegistrySteps.Coherent`: the invariant with source and target taken for one
contact. Every single write keeps `Coherent` and the renamed relation; at the end no row names the source, the renaming
renames nothing, and `Coherent` is the full invariant again.

Every `save` of a registry row runs the model's own validation. The validation is an arbitrary parameter (`Rules`): what
is stated about a successful merge holds whatever is refused. Three constraints of
`wms/models_domain/shipment_parties.py` refuse merges that the guards of the code allow. For every choice of them,
`RegistryWrites.Enforces(rules, enforced)` says that a validation enforces these and nothing else, and then
`ContactMerge.Registry.MergeContacts` succeeds if and only if the guards allow it and no enforced constraint is in the
way; what is in the way (`ContactMerge.InTheWayOfRows`) is told from the tables before the merge.

- One active default per link (259-263). The code saves the moved authorization before it clears the other default.
  Merging two links is refused if and only if some authorization is `AuthorizationMerge.Blocked`: an active default of
  the source link whose slot on the target link is free, where the target's default is active or an active source row
  with a smaller key and the default's contact activates it. Links meet twice in a merge. Two shippers have links to one
  organization (`ShipperMerge.MergeBlocked`). One shipper, or the merged one, has links to both recipient organizations
  (`OrganizationMerge.RecipientsBlocked`): their contacts have moved by then, so that condition is told through persons,
  on the entries that joining the shippers leaves, which `RegistryEntries.JoinedEntries` gives in closed form.
- Contacts of the link's own organization (273-286). Folding recipient organizations saves authorizations whose link is
  still in the organization that goes, so every person whom both organizations have, with an authorization, is refused
  (`OrganizationMerge.PersonsStranded`).
- One active correspondent per destination (106-110). The kept row takes over the flags while the other row is still
  there (`OrganizationMerge.CorrespondentsBlocked`).

None of them ever refuses a merge of persons. `MergeWitnesses` has concrete sound registries for each. Other checks of
the validation, such as on the activity of links and contacts, are left to the parameter.

Initial tables are assumed to have unique keys, one default per link, one correspondent organization per destination
and authorized contacts of the link's own organization, as the constraints of `wms/models_domain/shipment_parties.py`
and the writes of `wms/admin_contacts_contact_service.py:185-222` suggest (the database itself enforces the
uniqueness of defaults and correspondents for active rows only); registry rows name contacts of the right kind and only
persons have an organization.

## Where the code does not do what one might expect

- Merges of organizations are refused by the models' own constraints in the three cases above, although no guard of the
  merge names them (`MergeWitnesses.TwoActiveDefaultsBlock`, `ActivatedDefaultBlocks`, `SharedPersonBlocks`,
  `CorrespondentBlocks`); two recipient organizations that one shipper serves, each with an active default, are enough
  (`OneShipperBlocks`).
- Members of the source organization become members of the target without their addresses being synchronised; members
  of the target are synchronised only if the merge gives the target a default address
  (`ContactMerge.FollowersKeepAddresses`; `MergeWitnesses.FollowerKeepsOldAddress` has a person left with the old one).
- A second backfill pass reports no change but may still write: an inactive organization is skipped although a person
  of it activates it (`CorrespondentPromotion.SecondPassMayWrite`; exact condition on the state before any pass in
  `BackfillSettles`). Whether that person is visited before or after the organization makes no difference, because
  contacts are read when the pass starts.
- Overlapping queue runs may send a retry before its recorded time even if all of them are timely
  (`EmailClaims.OverlapRetriesEarly`). The only cause is a run that read the event before another run's failed save and
  claims it by that copy (`OnTimeIffNoneOutdated`, `OutdatedBySave`). A holder slower than the timeout shares its event
  (`LateHolderShares`); sharing has no other cause (`ExclusiveIffNobodyOvertaken`).
- Two simultaneous account requests for one free slot may both be refused (`Throttle.BothMayFail`), exactly when they
  cross (`RaceDecided`); it is not enough that the loser of the e-mail key tries the other key first
  (`EarlyUndoLeavesWinner`).
- A product without a name hides a kit among the ready cartons when another product of the kit has a name that does not
  follow "-" (`ReadyCartons.KitRowIff`, `ShownIff`; a carton, kit and table in `BlankNameHidesKit`).
- Restoring a version with zero sequences or untrimmed texts changes the mappings (`PackVersions.RestoreRoundTrip`).

## Model

| member | source | states |
|---|---|---|
| `ContactBook.Book.SaveAddress` | contacts/models.py:99-106 | Saving an address terminates through the save/sync recursion; the row becomes its contact's only default if it is one; exactly the members that use the organization's address receive its six postal fields on their default address, everybody else's addresses stay; a row that was another contact's leaves that contact; one default per contact is kept |
| `ContactBook.Book.SyncPeople` | contacts/models.py:154-156 | Every member that uses the organization's address, and nobody else, gets it copied |
| `ContactBook.Book.SyncFromOrganization` | contacts/models.py:133-151 | The member's default address, or one new default row, takes the organization's default address, or any of its addresses if none is default; no organization, no use or no address changes nothing |
| `ContactBook.Book.SaveContact` | contacts/models.py:65-72 | Saving named columns of a person that uses the organization's address synchronises that person only; any other save touches no address |
| `ContactBook.CopyIsOnlyDefault` | contacts/models.py:142-151 | After a synchronisation the member has exactly one default address and its six postal fields are the organization's |
| `ContactBook.CopyKeepsRows` | contacts/models.py:142-151 | A copy leaves the member every row it had with heading, phone, e-mail and notes; rows that were no default keep all columns; a new row appears only if there was no default, one at most, blank besides the address |
| `ContactBook.SaveKeepsRows` | contacts/models.py:99-106 | Saving a row writes that row; every other row keeps heading, phone, e-mail and notes, loses its default flag only to a new default of its contact, and its postal fields change only if it is the default of a member that gets a copy |
| `ContactBook.Book.EnsureCapability` | contacts/capabilities.py:4-13 | The capability becomes active for that contact only, by one row per contact and capability; nothing is written if it was active |
| `ContactDetails.MergeScalarFields` | wms/admin_contacts_merge_service.py:20-34 | The target keeps every text it has and takes over every text it lacks; flags only rise; if nothing is missing nothing is saved |
| `ContactDetails.TextsFilledIn` | wms/admin_contacts_merge_service.py:22-25 | A column holds a text afterwards exactly if the target had it, or had none there and the source had it |
| `ContactDetails.MergeCapabilities` | wms/admin_contacts_merge_service.py:71-73 | The target ends with the union of both contacts' active capabilities, nobody else's change, and rows stay unique |
| `ContactDetails.MergeAddresses` | wms/admin_contacts_merge_service.py:48-68 | The target's identities become the union of both; old rows are untouched; each missing identity is copied once, as a default only if that row was one and the target had none; other contacts keep their addresses, except that a default address which the target organization gains is copied to every member that follows it |
| `ContactDetails.ExtendedIdentities` | wms/admin_contacts_merge_service.py:49-68 | A set of rows that only adds copies of missing identities and misses none has exactly the union of the identities |
| `ContactDetails.SameIdentityIff` | wms/admin_contacts_merge_service.py:37-45 | Two addresses count as one exactly when their six fields are equal up to blanks at the ends |
| `ContactDetails.NewAddressTells` | wms/admin_contacts_merge_service.py:54-67 | A new address of the target is a source address with all its columns whose identity the target lacked, a default only if that was one and the target had none |
| `RegistryTables.LabelledIsRenamed` | wms/admin_contacts_merge_service.py:76-308 | Reading each row through the renaming of source to target gives the renamed relation over contacts that the five tables state |
| `RegistryTables.AbsentUnrenamed` | wms/admin_contacts_merge_service.py:76-308 | Once no row names the source, the renamed relation is the relation itself |
| `RegistrySteps.MovedKeeps` | wms/admin_contacts_merge_service.py:88-96 | Repointing an authorization to a free slot that means the same triple, and clearing the other default of the link, keeps every renamed triple, activity and the existence of each link's default |
| `RegistrySteps.AbsorbedKeeps` | wms/admin_contacts_merge_service.py:98-111 | Folding an authorization into the one that holds its slot loses no triple and no activity, and its link keeps a default |
| `RegistrySteps.SoundIsCoherent` | wms/admin_contacts_merge_service.py:151-308 | The registry invariant gives the weaker one that holds between the loops, where source and target count as one contact |
| `RegistrySteps.CoherentIsSound` | wms/admin_contacts_merge_service.py:151-308 | When the source is gone the weaker invariant is the full one again, including contacts of the link's own organization and one correspondent per destination |
| `RegistryWrites.ShipperDeletionTells` | wms/models_domain/shipment_parties.py:189-192 | Deleting a shipper takes its links and their authorizations along and nothing else, and each row that goes along is counted: so a merge whose count has not changed lost nothing by cascade |
| `RegistryWrites.OrganizationDeletionTells` | wms/models_domain/shipment_parties.py:138-141 | The same for a recipient organization, its links, its recipient contacts and their authorizations |
| `AuthorizationMerge.MergeAuthorizedContacts` | wms/admin_contacts_merge_service.py:76-111 | No authorization of the source recipient contact is left, the renamed relation is kept, every default of the source is the default of its link, nothing else changes; if no link authorizes both contacts the rows are the old ones with the contact renamed. Under the models' rule that an authorization names a contact of its link's organization it is refused exactly when a row has to take a new slot on a link of another organization than the target's (if the target's own rows keep the rule), and the other two constraints never refuse it |
| `AuthorizationMerge.MergeLinkAuthorizations` | wms/admin_contacts_merge_service.py:117-147 | No authorization of the source link is left, the rows of the target link are the closed form of `LinkJoin`, rows of other links stay. Under the models' constraint of one active default per link it is refused exactly when an active default has to take a new slot on the target link while that link's default is active, or is activated by an active row of a smaller key for the same contact (provided the contacts fit the target link, or their rule is not enforced) |
| `LinkJoin.JoinedStep` | wms/admin_contacts_merge_service.py:117-147 | One round of the loop keeps the closed form: the visited rows are on the target link, or gone where it had one for their contact; a row is active if it or the visited one for its contact was; the visited default, if any, is the only default |
| `LinkJoin.JoinedSlots` | wms/admin_contacts_merge_service.py:117-147 | In the end the target link is authorized for the contacts of both |
| `AuthorizationMerge.StillBlockedStep` | wms/models_domain/shipment_parties.py:259-263 | Whatever a round does to other rows, the rows that the constraint will refuse are the same before and after it: the condition read before the loop is the one met in the loop |
| `AuthorizationMerge.FoldedLeavesBlocked` | wms/admin_contacts_merge_service.py:124-147 | Folding an authorization that is not a default neither blocks nor unblocks a later one, although it may activate the target's default |
| `AuthorizationMerge.FirstIsBlocked` | wms/models_domain/shipment_parties.py:259-263 | A row that is reached is refused exactly when its slot is free and another default of the target link is active by then |
| `AuthorizationMerge.MergeShipperLinks` | wms/admin_contacts_merge_service.py:114-148 | The source link goes after its authorizations, and nothing is deleted by cascade; the refusal condition is that of the loop |
| `LinkMerge.MoveLink` | wms/admin_contacts_merge_service.py:179-188 | One link takes its new foreign keys, or goes into the link that has them; under the constraint of one active default it is refused exactly when that link blocks one of its authorizations |
| `ShipperMerge.MoveShipperLinks` | wms/admin_contacts_merge_service.py:179-188 | Every link of the folded shipper is repointed or merged into the target's link to the same recipient organization; the entries (shipper, recipient organization, contact, flags) are the joined ones; under the constraint refused exactly when two such links block each other |
| `LinkMerge.StillPairsStep` | wms/admin_contacts_merge_service.py:179-188 | Repointing or merging one link, by shipper or by recipient organization, neither blocks nor unblocks another pair of links |
| `RegistryEntries.PlacedJoins` | wms/admin_contacts_merge_service.py:179-188 | Placing one link joins the entries of its recipient organization and leaves all others: active if one of the two for a contact was, the source's default instead of the target's |
| `ShipperMerge.FoldShipper` | wms/admin_contacts_merge_service.py:160-189 | The kept shipper takes over default contact, validation and flags, the other row goes with nothing left referring to it; refusal as for the links |
| `ShipperMerge.MergeShippers` | wms/admin_contacts_merge_service.py:151-189 | No shipper of the source is left; shipper rows are the folded ones; without a source shipper nothing changes; under the constraint refused exactly when both contacts ship and a pair of their links is blocked |
| `RecipientTransfer.MoveOrganizationRecipients` | wms/admin_contacts_merge_service.py:224-239 | Every recipient contact of the folded organization is repointed, or merged and deleted, persons and activity of the remaining rows unchanged, and each authorization follows its person; refused under the models' constraints exactly when a person whom both organizations have is authorized by the folded one, and only by the rule on contacts |
| `RecipientTransfer.TransferredStep` | wms/admin_contacts_merge_service.py:224-239 | One round keeps the closed form: visited rows belong to the target, and every authorization names the row of its own person there; no two authorizations of a link meet |
| `RecipientTransfer.SharedIsStranded` | wms/models_domain/shipment_parties.py:273-286 | Where authorizations name contacts of their links' organizations, every authorization of a person whom both organizations have is one that the rule on contacts of other organizations refuses to move |
| `RecipientTransfer.PairsIffPersonsBlocked` | wms/admin_contacts_merge_service.py:224-252 | After the contacts have moved some links of one shipper to the two organizations are blocked exactly when, before that, a shipper has an active default for the source organization, none for the target and the same person, and a default for the target that is active or activated by an active entry of a smaller key for the source and the same person |
| `OrganizationMerge.MoveOrganizationLinks` | wms/admin_contacts_merge_service.py:241-252 | Every link to the folded organization is repointed or merged into the shipper's link to the kept one; under the constraint of one active default refused exactly when two links of one shipper to the two organizations block each other (the contacts having moved before) |
| `OrganizationMerge.FoldOrganization` | wms/admin_contacts_merge_service.py:208-254 | The kept recipient organization takes over the flags and the validation, all rows move, the emptied row goes without cascade; refused by the models' constraints exactly for blocked persons, a shared person with an authorization, or the active correspondent, each read off the tables before the fold |
| `OrganizationMerge.TakeOverFlags` | wms/models_domain/shipment_parties.py:106-110 | Under the models' constraint of one active correspondent per destination the kept row is refused its changes exactly when the row to be folded, which is still there, is the active correspondent |
| `OrganizationMerge.InTheWayAfterShippers` | wms/admin_contacts_merge_service.py:298-301 | What is in the way of the recipient organizations once the shippers are merged is told from the tables before: the same correspondents, the same shared persons, and persons blocked in the joined entries |
| `OrganizationMerge.MergeRecipientOrganizations` | wms/admin_contacts_merge_service.py:192-254 | For every choice of the three constraints, enforced and nothing else: succeeds exactly when the two are not recipients at different destinations and no enforced constraint is in the way; then no recipient organization of the source is left |
| `RecipientMerge.MergePersonRecipients` | wms/admin_contacts_merge_service.py:271-284 | No recipient contact of the source person is left, the renamed relation is kept, and none of the three constraints ever refuses it |
| `RegistryWrites.DecidedExactly` | wms/models_domain/shipment_parties.py:106-110 | A part of the merge that ends as its obstacles say is done, under any choice of the constraints, exactly when no enforced constraint is in the way |
| `ContactMerge.MergeOrganizationRows` | wms/admin_contacts_merge_service.py:298-301 | After the organization branch the registry invariant holds, the relation is exactly the old one renamed, and nothing was removed by cascade; for every choice of the three constraints of the models it succeeds exactly when destinations do not clash and no enforced constraint is in the way, read off the tables before the merge |
| `ContactMerge.MergePersonRows` | wms/admin_contacts_merge_service.py:268-284 | After the person branch the registry invariant holds, the relation is exactly the old one renamed, default contacts of shippers are renamed, recipient organizations and links are untouched; the three constraints of the models never refuse it |
| `ContactMerge.Registry.MergePerson` | wms/admin_contacts_merge_service.py:257-284 | Refused exactly for persons of two different organizations when the validation enforces no more than the three constraints; the target adopts the source's organization if it has none; correspondents of destinations are renamed |
| `ContactMerge.Registry.MergeContacts` | wms/admin_contacts_merge_service.py:287-308 | A refusal leaves everything as it was; merging a contact with itself does nothing; different types are refused; for every choice of the three constraints, enforced and nothing else, the merge succeeds exactly when the guards allow it and, for organizations, no enforced constraint is in the way before it; any other validation that enforces one excludes it too; success renames the relation, keeps every invariant and states contacts, capabilities, addresses, destinations and the activity of links and recipient contacts; two merged organizations are settled, and merging a settled pair again changes nothing at all |
| `ContactMerge.FollowersKeepAddresses` | wms/admin_contacts_merge_service.py:298-299 | A member that followed the source's address follows the target and keeps exactly the addresses it had, while the target keeps its default address |
| `MergeWitnesses.ConstraintRulesExact` | wms/models_domain/shipment_parties.py:259-263 | There is a validation that enforces one active default per link and refuses nothing else, so the exact refusal conditions apply to it |
| `MergeWitnesses.TwoActiveDefaultsBlock` | wms/admin_contacts_merge_service.py:117-132 | A sound registry of two shippers whose merge the constraint refuses: two active defaults for different contacts |
| `MergeWitnesses.ActivatedDefaultBlocks` | wms/admin_contacts_merge_service.py:134-144 | Another one where the target's default is inactive and the merge itself activates it before the source's default moves |
| `MergeWitnesses.SharedPersonBlocks` | wms/admin_contacts_merge_service.py:224-239 | A sound registry of two recipient organizations with one person, whose merge the rule on contacts refuses |
| `MergeWitnesses.OneShipperBlocks` | wms/admin_contacts_merge_service.py:241-252 | A sound registry of one shipper and two recipient organizations with a person each, both the active default: only the constraint of one active default is in the way, and no shippers are merged |
| `MergeWitnesses.CorrespondentBlocks` | wms/admin_contacts_merge_service.py:208-223 | A sound registry of two recipient organizations whose merge the constraint on correspondents refuses: the source is the correspondent and the target takes that over first |
| `MergeWitnesses.FollowerKeepsOldAddress` | wms/admin_contacts_merge_service.py:298-299 | A person that follows the source's old default address follows the target after the merge and still has the old one, which is not the target's |
| `ContactMerge.SettledAfter` | wms/admin_contacts_merge_service.py:20-73 | After a merge of two organizations nothing is left to carry over and no row or member is left to move |
| `MergeEffects.DefaultContactsFollow` | wms/admin_contacts_merge_service.py:268 | After a merge of persons no shipper has the source as default contact: it has the target; every other default contact and every other column is as before |
| `MergeEffects.CorrespondentsFollow` | wms/admin_contacts_merge_service.py:269 | After a merge of persons no destination has the source as correspondent: it has the target; the others are as before |
| `MergeEffects.RecipientsFollow` | wms/admin_contacts_merge_service.py:271-284 | After a merge of persons each recipient contact that is left has its person, or the target for the source, in its own recipient organization |
| `MergeEffects.MembersFollow` | wms/admin_contacts_merge_service.py:299 | After a merge of organizations the source's members are the target's, everybody else is where they were, and no other column of any other contact changes |
| `MergeEffects.OneShipperFollows` | wms/admin_contacts_merge_service.py:154-157 | The only shipper of the two is the target's, with all its other columns |
| `MergeEffects.TwoShippersBecomeOne` | wms/admin_contacts_merge_service.py:160-189 | Of two shippers the target's stays with its own default contact or else the source's, raised flags and validation; the source's goes |
| `MergeEffects.TwoReceiversBecomeOne` | wms/admin_contacts_merge_service.py:208-254 | Of two recipient organizations the target's stays at its destination with the flags of both; the source's goes |
| `MergeEffects.BothContacts` | wms/admin_contacts_merge_service.py:20-34 | The target keeps kind and name, its flags only rise, its organization is its own or else the source's; the source becomes inactive and changes in nothing else |
| `MergeEffects.TargetTexts` | wms/admin_contacts_merge_service.py:22-25 | The target has each of its texts, and the source's where it had none |
| `MergeEffects.TargetCapabilities` | wms/admin_contacts_merge_service.py:71-73 | The target has an active row for a capability exactly if either contact had one |
| `MergeEffects.TargetAddresses` | wms/admin_contacts_merge_service.py:48-68 | The target keeps its rows and has each address of the source, up to blanks |
| `MergeEffects.MergeableIff` | wms/admin_contacts_merge_service.py:201-206 | The guards allow two different contacts exactly if they are of one kind, persons are not of two organizations, organizations do not receive at two destinations |
| `ContactMerge.ActiveIsDisjunction` | wms/admin_contacts_merge_service.py:99-101 | An authorization is active after the merge exactly when one of those it stands for was |
| `ContactMerge.DefaultIffAPartHad` | wms/admin_contacts_merge_service.py:81-148 | A link has a default contact after the merge exactly when one of the links it stands for had |
| `ContactMerge.TripleIdentifiesRow` | wms/models_domain/shipment_parties.py:255-258 | In a sound registry the three contacts determine the authorization row |
| `KitComponents.Expander.UnitQuantities` | wms/kit_components.py:18-50 | The memoised recursion terminates; a result is the plain sum over all paths of the products of positive quantities, the stack is restored and every memo entry stays correct; a cycle is a closed walk at the end of a walk from the product |
| `KitComponents.Expander.SumItems` | wms/kit_components.py:36-47 | The loop over items adds up the scaled expansions and skips items of no positive quantity before recursing |
| `KitComponents.UnitComponentQuantities` | wms/kit_components.py:18-50 | Called from outside, the cycle error is raised exactly when a cycle of positive items is reachable, and its ids are such a cycle |
| `KitComponents.ComponentQuantities` | wms/kit_components.py:53-63 | The expansion times the quantity; nothing for quantities that are not positive |
| `KitComponents.BoundedReachesNoCycle` | wms/kit_components.py:27-29 | A product whose positive chains are bounded reaches no cycle |
| `KitComponents.SameUnits` | wms/kit_components.py:33-47 | The number of units does not depend on the bound used to define the recursion |
| `KitComponents.ExpansionIsFlat` | wms/kit_components.py:33-34 | The keys of an expansion are products without items |
| `KitComponents.ExpansionIsUnique` | wms/kit_components.py:18-50 | A product has one expansion |
| `KitStock.KitUnitsInCarton` | wms/kits_view_helpers.py:19-38 | For every visiting order: n >= 1 exactly when the carton holds n times the kit and nothing else, 0 exactly when it holds no whole number of units |
| `KitStock.ReadingUnique` | wms/kits_view_helpers.py:19-38 | A carton has one reading as units of a kit |
| `KitStock.FilledCartonReadsBack` | wms/kits_view_helpers.py:19-38 | A carton filled with n units of an expansion reads back as n units |
| `KitStock.MatchUnique` | wms/kits_view_helpers.py:62-74 | A carton counts for at most one kit, with one number of units |
| `KitStock.CartonKitStock` | wms/kits_view_helpers.py:41-80 | Each counted carton adds its units, by status, and its date to the first kit it matches; others add nothing |
| `KitStock.CountsIff` | wms/kits_view_helpers.py:46-74 | A carton counts for a kit exactly if it is in preparation or ready, in no shipment, and holds whole units of a kit of the list; it counts for so many |
| `KitStock.StockIsHeld` | wms/kits_view_helpers.py:75-77 | The units counted for a kit and a status are what those cartons hold: of every component that many times what one unit needs |
| `KitStock.DatesPicked` | wms/kits_view_helpers.py:78-79 | The dates of a kit are those of the cartons that count for it, in the order of the query |
| `KitStock.MatchesUnique` | wms/kits_view_helpers.py:56-79 | What each carton counts for is determined by the cartons, the kits and their expansions |
| `EmailQueue.ResolveConfig` | wms/emailing.py:143-187 | Whatever is passed or configured, the limits are usable: at least one attempt, 1 <= base <= maximum, positive timeout; each limit follows the argument if one is given, else the setting, the default for what is no number |
| `EmailQueue.DelaysGrow` | wms/emailing.py:217-220 | Retry delays lie between base and maximum and never shrink with more attempts |
| `EmailQueue.DelayDoubles` | wms/emailing.py:217-220 | The first retry waits for the base delay; each further failure doubles the wait, cut to the maximum |
| `EmailQueue.WaitsDouble` | wms/emailing.py:331-342 | The same in the recorded instants: from a failed send to its next attempt it is the base at first, after the next failure twice as long as before, cut to the maximum |
| `EmailQueue.ReadBatch` | wms/emailing.py:249-256 | A batch is all claimable rows behind the cursor in (created_at, id) order, cut to the batch size; shorter only if nothing is left out |
| `EmailQueue.Queue.Select` | wms/emailing.py:545-577 | One undisturbed run terminates and claims exactly the first rows, up to the limit, that are claimable and not deferred, each once, in queue order; the deferred counter counts exactly the deferred rows read |
| `EmailQueue.SelectedTell` | wms/emailing.py:229-256 | By status: selected are pending rows that are due, failed ones if asked for, and claims as old as the timeout; older rows first; with room left none is missed, with none left all others are younger |
| `EmailQueue.LeftTell` | wms/emailing.py:258-265 | The rows counted as deferred are pending ones whose next attempt is still to come |
| `EmailQueue.Queue.Process` | wms/emailing.py:509-592 | As above for the whole run; each selected row is the result of one send of its payload; other rows are untouched; selected = processed + failed + retried |
| `EmailQueue.SentTells` | wms/emailing.py:301-342 | What a send leaves: processed with its attempts, failed for good with one more and no next attempt, or pending with one more and the next attempt one delay after the failure |
| `EmailQueue.CountsTell` | wms/emailing.py:301-342 | The counters are the numbers of sends that succeeded, that used the last attempt, and that failed with attempts left |
| `EmailClaims.TimelyRunsNeverShare` | wms/emailing.py:242-288 | For every interleaving of runs, crashes included and whatever each looks for: if every holder saves or stops less than the timeout after its claim, no two runs ever hold one event |
| `EmailClaims.ExclusiveIffNobodyOvertaken` | wms/emailing.py:249-288 | For every interleaving: no two runs ever hold one event exactly when no run claims an event whose holder's claim is as old as the timeout, seen from the claiming run's start |
| `EmailClaims.OvertakingShares` | wms/emailing.py:268-288 | One claim that overtakes a holder makes the two share the event |
| `EmailClaims.QueueStaysExclusive` | wms/emailing.py:242-288 | Both, for everything that can happen from the empty queue |
| `EmailClaims.RowsOfStep` | wms/emailing.py:242-342 | A step changes one row at most, and only by a claim, a save or an arrival |
| `EmailClaims.ClaimOfStep` | wms/emailing.py:268-288 | A claim takes a row that is pending, failed and asked for, or claimed as long ago as the timeout; otherwise nothing happens |
| `EmailClaims.SaveOfStep` | wms/emailing.py:301-342 | A save writes the attempts that the run read, whatever the row has become, and gives the event up |
| `EmailClaims.LateHolderShares` | wms/emailing.py:268-288 | Without that timeliness two runs can hold one event: a concrete run |
| `EmailClaims.OverlapRetriesEarly` | wms/emailing.py:556-590 | With overlapping runs, all of them timely at every step, a retry can be claimed before its recorded time, by an outdated copy: a concrete run |
| `EmailClaims.OnTimeIffNoneOutdated` | wms/emailing.py:258-288 | For every interleaving, from every state where no row or copy but pending ones waits for a later time: no claim comes before its recorded retry time exactly when no early claim is decided by a copy that its row has outgrown |
| `EmailClaims.QueueRetriesOnTime` | wms/emailing.py:258-288 | The same from the empty queue |
| `EmailClaims.OutdatedBySave` | wms/emailing.py:301-342 | A copy that agrees with its row ceases to agree only when a result for that event is saved, by another run or by the run itself, which then claims nothing more |
| `EmailClaims.RunsOneAtATime` | wms/emailing.py:301-342 | Over every sequence of runs that do not overlap, with crashes anywhere: pending implies attempts left, failed implies none left, finished events never change, attempts never decrease |
| `EmailClaims.QueueStaysInOrder` | wms/emailing.py:301-342 | From the empty queue, whatever runs follow one another: pending events have attempts left, failed ones have used all of them, and a finished event stays as it is in every continuation |
| `EmailClaims.SendsOnTime` | wms/emailing.py:258-265 | In such runs a send comes no earlier than the recorded retry time; a failure costs one attempt and sets the next time between base and maximum later |
| `DestinationCodes.GenerateDestinationCode` | wms/import_services_destinations.py:41-52 | Terminates for every finite set of taken codes with a free, upper-case alphanumeric code, the first free candidate; with fewer than 9*10^(k-1) taken it stops before suffix 10^k, so the code fits ten characters while fewer than 9*10^8 are taken |
| `DestinationCodes.CleanedKeepsCodes` | wms/import_services_destinations.py:42-45 | A code of at most ten characters is its own cleaned form |
| `DestinationCodes.CleanedTells` | wms/import_services_destinations.py:42-45 | A name is cleaned to all of its letters and digits in order, or the first ten, in upper case, and to DEST if it has none |
| `DestinationCodes.CandidateTells` | wms/import_services_destinations.py:49-51 | A candidate is the longest front of the cleaned name that leaves room for the suffix in ten characters, one character at least |
| `DestinationCodes.Pigeonhole` | wms/import_services_destinations.py:48-51 | There are at least as many taken codes as taken candidates with suffixes of one length |
| `DestinationCodes.CandidatesRepeat` | wms/import_services_destinations.py:49-51 | Candidates are not injective overall: two suffixes of ABCDEFGH1X give one code |
| `Decimal.Digits` | wms/import_services_destinations.py:50-50 | A number is written with k digits exactly between two powers of ten |
| `Signatures.SignatureInjective` | wms/order_helpers.py:184-187 | Equal ready-carton signatures mean equal product lines and equal expiry |
| `Signatures.CompositionInjective` | wms/order_helpers.py:190-191 | Equal composition signatures mean equal product lines |
| `Signatures.CompositionOfParts` | wms/order_helpers.py:184-191 | Lines one after the other are written with a bar between them |
| `Signatures.IsoTells` | wms/order_helpers.py:186 | A date is written as four, two and two digits that read back as year, month and day |
| `ProductLines.LinesDetermine` | wms/order_helpers.py:230-243 | Equal sorted lines come from equal quantities, whatever the sort key |
| `ProductLines.TextLessIff` | wms/order_helpers.py:230-243 | Lower-cased names are ordered by the first character in which they differ, a front before the whole |
| `ProductLines.DateLessIff` | wms/order_helpers.py:244 | Dates are ordered as the numbers read off their digits |
| `ReadyCartons.BuildReadyRows` | wms/order_helpers.py:204-289 | Each row lists, in query order, exactly the ready cartons of its lines and earliest expiry, with their number; no two rows share lines and expiry; every ready carton has a row |
| `ReadyCartons.RowsPartition` | wms/order_helpers.py:207-270 | Each packed, unassigned, non-empty carton is in exactly one row, every other carton in none |
| `ReadyCartons.MembersPicked` | wms/order_helpers.py:253-270 | A row lists its cartons in the order of the query, each once |
| `ReadyCartons.SameRowIff` | wms/order_helpers.py:244-270 | Two ready cartons share their row exactly when their quantities and earliest expiry are equal |
| `ReadyCartons.KitsBySignature` | wms/order_helpers.py:302-343 | The table maps each signature of one unit of an acyclic, non-empty kit to the last such kit and contains no other signature |
| `ReadyCartons.SplitReadyRows` | wms/order_helpers.py:345-358 | Rows are split, in order, by whether their composition is in the table |
| `ReadyCartons.CartonRowsPicked` | wms/order_helpers.py:345-358 | The rows of no kit keep their order and none is lost |
| `ReadyCartons.KitRowsPicked` | wms/order_helpers.py:345-358 | The rows of kits keep their order, each with the kit of its composition |
| `ProductLines.ListedAlikeIff` | wms/order_helpers.py:230-243 | A carton and a kit with equal quantities are listed alike exactly when every product with a name follows "-" in text order, or is named "-" with a larger key than the nameless ones |
| `ReadyCartons.KitSignatureOfCarton` | wms/order_helpers.py:323-343 | A kit has a carton's composition signature exactly when the carton holds one unit of it and both are listed alike |
| `ReadyCartons.KitRowIff` | wms/order_helpers.py:323-351 | For all names: the composition signature of a ready carton is in the table exactly when the carton holds one unit of some kit of the list and its nameless products stand first; the kit is then the last such one |
| `ReadyCartons.ShownIff` | wms/order_helpers.py:204-358 | In the two lists that come out: a ready carton is shown in a row of kits, and in no row of cartons, exactly when it holds one unit of some kit of the list and its nameless products stand first; the row's kit is the last such one |
| `ReadyCartons.BlankNameHidesKit` | wms/order_helpers.py:223-241 | A ready carton that holds exactly one unit of the only kit, and whose signature is in no table built from it: concrete products, names and contents |
| `ReadyCartons.SelectReadyCartons` | wms/order_helpers.py:361-390 | The selection takes the first cartons of each row with a valid quantity and its length is the announced total; each key shows the error of its last row with an invalid or excessive quantity and no other key shows one; every typed quantity is echoed |
| `ReadyCartons.ChosenInParts` | wms/order_helpers.py:361-390 | The selection is one part of each row, in order: where a number from 1 to the stock was typed, exactly so many first cartons; otherwise nothing |
| `ReadyCartons.PartsAddUp` | wms/order_helpers.py:388-390 | The number of selected cartons is the sum of the valid quantities |
| `ReadyCartons.ErrorTells` | wms/order_helpers.py:376-387 | An error is shown exactly for what is typed and is no number of one or more (invalid), or more than there is (insufficient) |
| `CartonDispatch.SelectionIsSound` | wms/order_helpers.py:361-390 | Whatever is posted, the selection names no carton twice and only ready cartons |
| `CartonDispatch.Depot.ResolveReadyCartons` | wms/portal_order_handlers.py:12-33 | Resolves exactly when the non-zero ids are distinct and each carton exists, is packed and belongs to no shipment |
| `CartonDispatch.NonZeroPicked` | wms/portal_order_handlers.py:12-16 | The wanted ids are the non-zero ones in the order they came |
| `CartonDispatch.SelectionResolves` | wms/portal_order_handlers.py:12-33 | A selection from up-to-date rows resolves to itself |
| `CartonDispatch.Depot.SetCartonStatus` | wms/carton_status_events.py:45-76 | The shipment set in memory is saved, and an event recorded, only together with a change of status |
| `CartonDispatch.Depot.AssignReadyCartons` | wms/portal_order_handlers.py:36-68 | Every selected carton ends assigned and linked, the others are untouched, each product line grows in quantity and prepared quantity by exactly what the cartons bring, one event per carton |
| `CartonDispatch.RemainderUnchanged` | wms/portal_order_handlers.py:54-68 | Quantity minus prepared quantity and the reservation of every line are unchanged |
| `CartonDispatch.BroughtByOne` | wms/portal_order_handlers.py:51-56 | One more carton adds its total of a product, and nothing if that is negative |
| `CartonDispatch.AllIsBrought` | wms/portal_order_handlers.py:51-56 | With non-negative contents what is added is everything the cartons hold |
| `CorrespondentPromotion.Backfill.PromoteDestinations` | contacts/correspondent_recipient_promotion.py:180-222 | The loop over destinations computes the specified promotion of the organization's row |
| `CorrespondentPromotion.Backfill.Run` | contacts/correspondent_recipient_promotion.py:264-296 | A pass over contacts read at its start computes the specified pass and summary |
| `CorrespondentPromotion.Backfill.RunOrRehearse` | contacts/correspondent_recipient_promotion.py:299-306 | A dry run gives the summary of the real one and leaves the state as it was |
| `CorrespondentPromotion.PromotedAll` | contacts/correspondent_recipient_promotion.py:182-222 | At most one row per organization is kept, an active row never changes destination, and afterwards nothing is left to do at these destinations |
| `CorrespondentPromotion.ReportsTell` | contacts/correspondent_recipient_promotion.py:180-198 | A promotion reports a creation exactly when the organization had no row, a reactivation exactly when its row was inactive |
| `PromotionEffects.PromotedExactly` | contacts/correspondent_recipient_promotion.py:182-222 | The loop over any number of destinations in closed form: a missing row is created at the first one, an inactive row moves there, both ready; an active row stays where it is and becomes ready only if that is one of the destinations; other organizations' rows stay |
| `PromotionEffects.NeverDenied` | contacts/correspondent_recipient_promotion.py:182-222 | A validation that refuses nothing stops no promotion |
| `CorrespondentPromotion.SupportChosen` | contacts/correspondent_recipient_promotion.py:36-44 | The support organization is an active one if there is one, and the one with the smallest key among those |
| `CorrespondentPromotion.MarkedOnce` | contacts/correspondent_recipient_promotion.py:64-71 | Marked notes contain the marker, so marking again changes nothing |
| `PromotionEffects.MarkedTells` | contacts/correspondent_recipient_promotion.py:64-71 | Notes without the marker keep their text, stripped, and get the marker on a line of its own |
| `PromotionEffects.SupportTells` | contacts/correspondent_recipient_promotion.py:47-73 | The support organization bears the name and is active; one is made exactly if there was none; otherwise only activity and notes of it change |
| `PromotionEffects.ResolvedTells` | contacts/correspondent_recipient_promotion.py:97-121 | An organization carries itself; a person with an organization is carried by that, which becomes active; anybody else is attached to the support organization; nobody else changes |
| `CorrespondentPromotion.AfterPass` | contacts/correspondent_recipient_promotion.py:264-296 | After a successful pass every correspondent that was active at its start has an active organization with nothing left to do, and whoever was activated has an active row |
| `PromotionEffects.BackfillPlaces` | contacts/correspondent_recipient_promotion.py:264-296 | Whatever row a pass creates or reactivates is ready and stands at the first destination of the smallest of the active correspondents that its organization carries |
| `PromotionEffects.BackfillCounts` | contacts/correspondent_recipient_promotion.py:264-296 | The summary counts the correspondents visited, the rows that are new, the rows that were inactive and are active, the support organization that is new, and the persons with another organization |
| `PromotionEffects.ChangedBetween` | contacts/correspondent_recipient_promotion.py:284-285 | The visits counted as changes are no fewer than any kind of change, no more than all of them or than the visits |
| `CorrespondentPromotion.BackfillTwice` | contacts/correspondent_recipient_promotion.py:264-306 | A second pass reports no change; it completes and leaves the state equal exactly when no active correspondent organization has an active row at its own destination that is not ready |
| `CorrespondentPromotion.BackfillSettles` | contacts/correspondent_recipient_promotion.py:264-306 | The same told from the state before the first pass: a second pass succeeds and changes nothing exactly when no inactive correspondent organization has an active row, not ready, at its own destination and a correspondent that activates it |
| `CorrespondentPromotion.RipeIffRipening` | contacts/correspondent_recipient_promotion.py:97-121 | What a pass leaves ripe is what was ripening before it: a person activates its own organization, or the support organization unless an earlier correspondent activates another one |
| `CorrespondentPromotion.PassTraced` | contacts/correspondent_recipient_promotion.py:264-296 | After the visits of any part of a pass an inactive contact is active exactly when one of the visitors joins it |
| `CorrespondentPromotion.ActiveOrganizationsNeverRipe` | contacts/correspondent_recipient_promotion.py:165-236 | That is so whenever no correspondent organization is inactive before the first pass |
| `CorrespondentPromotion.SecondPassMayWrite` | contacts/correspondent_recipient_promotion.py:97-108 | It is not always so: concrete contacts, destinations and rows |
| `Throttle.KeysDiffer` | wms/account_request_handlers.py:304-310 | An e-mail key and an IP key never share a cache entry, and different values never share one |
| `Throttle.EmailSlot` | wms/account_request_handlers.py:304-310 | E-mail addresses share a cache entry exactly if they are equal up to case and blanks at the ends |
| `Throttle.IpSlot` | wms/account_request_handlers.py:304-310 | The cache entry of an address of the network, one for all requests without it |
| `Throttle.Cache.Reserve` | wms/account_request_handlers.py:313-326 | Alone, a reservation succeeds exactly when both keys are free and otherwise leaves the cache as it was |
| `Throttle.Cache.Release` | wms/account_request_handlers.py:329-335 | Releasing deletes the two keys and no others |
| `Throttle.AloneReserves` | wms/account_request_handlers.py:313-326 | A request whose steps nobody interrupts ends as the undisturbed reservation does: both keys if both were free, else refused with the cache as it was |
| `Throttle.ReservationsStayOrdered` | wms/account_request_handlers.py:313-335 | For every interleaving each cached key has exactly one owner, so a refused request leaves nothing behind |
| `Throttle.OnlyOwnersDelete` | wms/account_request_handlers.py:322-335 | A key that leaves the cache belonged to the request that deleted it |
| `Throttle.ReservedDiffer` | wms/account_request_handlers.py:318-321 | Two requests that hold reservations at the same time share neither key |
| `Throttle.NothingLeftBehind` | wms/account_request_handlers.py:322-335 | When every request is refused or released the cache is empty |
| `Throttle.CacheStaysOrdered` | wms/account_request_handlers.py:313-335 | From the empty cache, whatever requests do: the cached keys are exactly those with an owner, each has one, and nothing is left once all requests are refused or released |
| `Throttle.RaceDecided` | wms/account_request_handlers.py:313-326 | Two requests for one free slot, among any others and in any interleaving: exactly one gets it, unless the one that has the e-mail key tries the other key while its rival, which took that, has not given it back; then both are refused |
| `Throttle.EarlyUndoLeavesWinner` | wms/account_request_handlers.py:318-326 | From the same start, a rival that takes the second key first, before the winner tries it, but gives it back in time does no harm: the five steps, which do not cross, and their outcome |
| `Throttle.BothMayFail` | wms/account_request_handlers.py:318-326 | Two requests with the same keys, no others and an empty cache: a run of their own steps, which cross, after which both are refused |
| `PackVersions.PackDocument.SaveVersion` | wms/print_pack_template_versions.py:38-63 | Appends a version with the next number, the current template and the ordered mappings |
| `PackVersions.SavedTells` | wms/print_pack_template_versions.py:10-63 | A save of either kind appends one version: the number after the largest so far or 1, the template, every mapping once by sequence and key, the kind, the stripped note |
| `PackVersions.PackDocument.ApplyMappings` | wms/print_pack_template_versions.py:66-82 | Replaces all mapping rows by cleaned ones; fails exactly when two of them name one cell |
| `PackVersions.PackDocument.Restore` | wms/print_pack_template_versions.py:85-111 | Restores template and mappings and appends a version, or leaves the document as it was |
| `PackVersions.RestoredTells` | wms/print_pack_template_versions.py:66-111 | A restore leaves the version's template and, for each of its entries, one row with stripped texts, numbered by its place if it had no number |
| `PackVersions.RefusedIff` | wms/print_pack_template_versions.py:66-82 | A restore is refused exactly if two entries of the version name one cell once their texts are stripped |
| `PackVersions.ChangeTells` | wms/print_pack_template_versions.py:38-111 | Each change in a run: an edit replaces, a save appends one version, a restore appends one marked as such or changes nothing |
| `PackVersions.RestoreRoundTrip` | wms/print_pack_template_versions.py:10-111 | The new version has the identical ordered mappings and template exactly when the restored one has positive sequences and trimmed texts; such a version is always restored |
| `PackVersions.HistoryIsAppendOnly` | wms/print_pack_template_versions.py:26-111 | Over every run of edits, saves and restores versions are only appended, numbers strictly increase, older versions are untouched |

## Left out

- ContactMerge.Registry.MergeContacts: for a target person that follows an organization's address only the other contacts' addresses are described, since each save of the target rewrites its own default address; that a second merge of two persons changes nothing is not claimed, because the address synchronisation runs after the addresses are merged.
- AuthorizationMerge.MergeLinkAuthorizations: the two loops over authorizations have one body in the code, written twice; here they share `FoldAuthorization`.
- ContactBook.Book.SaveContact: saves of all columns, which would store a name derived from first and last name; merges and promotions name the columns they save.
- ContactBook.Book.SaveAddress: organizations that are members of an organization; with members in a circle the recursion of the hooks would not end.
- CorrespondentPromotion.Resolve: attaching a person to the support organization may also synchronise that person's address; `ContactBook` has that hook, the promotion model does not call it.
- CorrespondentPromotion.Backfill.Run: the default shipper links created for single destinations (`wms/default_shipper_bindings.py` is not part of this model).
- EmailQueue.Queue.Process: subjects, recipients, error messages and the sending itself; a send is an arbitrary boolean, instants come from an arbitrary non-decreasing clock.
- EmailClaims.TimelyRunsNeverShare: all runs use one configuration, and steps may interleave more freely than a run's own loop order allows.
- Throttle.ReservationsStayOrdered: no key expires.
- DestinationCodes.GenerateDestinationCode: case folding is that of ASCII.
- ReadyCartons.BuildReadyRows: the final order of the rows, the category paths and the digest of the row key, which is an arbitrary function; the selection does not depend on it being injective.
- ReadyCartons.SplitReadyRows: names and category paths of kit rows.
- ReadyCartons.SelectReadyCartons: parsing a quantity is an arbitrary function.
- CartonDispatch.Depot.AssignReadyCartons: the final synchronisation of the shipment's state and the actor of a status event (`wms/shipment_status.py` is not part of this model).
- KitStock.CartonKitStock: the display rows of the kit page built around it.
- PackVersions.PackDocument.Restore: file names and storage; a restored file is its bytes.
- Text operations: stripping and case folding cover ASCII and Latin-1 spaces only; Unicode normalisation is not modelled.
- Admin pages, forms, permissions, imports of spreadsheets, document scanning, billing, planning and printing: no algorithm modelled here depends on them.
- Stock reservation, packing and shipment creation: they belong to services whose behaviour the modelled functions only call.
