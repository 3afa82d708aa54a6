# NewBusiness entity reconciliation, modelled in Dafny

NewBusiness is a Flask CRM for a media agency. Its database holds **advertisers**, **contacts**,
**activities** (notes written against an advertiser) and **spending rows** (one per advertiser
and year, with nine media channels, a grand total and an optional manual net figure). Several
feeds write into it:

- the agency CRM's webhooks (companies, brands, contacts, invoices, status updates);
- the TV planner's webhooks (campaigns, waves);
- the one-off initial sync that pulls both systems' feeds;
- the CSV spending import, with its lead-status sweep;
- the duplicate-advertiser cleanup script;
- the script that renames advertisers to the agency CRM's "Brand (Company)" form.

NewBusiness also pushes contact updates out to subscribed webhooks.

The model keeps the database as a `Store` class (`Models.dfy`). It has a field for each table
(`advertisers`, `contacts`, `activities`, `spending`) and the next advertiser id. `Store.Value()`
returns the tables as a `DB` value, and `DB.Valid()` gathers the schema's constraints:

- advertiser names are unique;
- advertiser ids rise and stay below the next id;
- there is at most one spending row per (advertiser, year);
- every reference names a stored advertiser.

Each operation of the source has two parts:

1. A **specification function** on `DB` values. It states the operation's effect, including its
   error path: an exception and rollback is `Raised`, or "store unchanged".
2. A **method** on the `Store`. It carries the source's loops and session calls, and its
   `ensures` ties the new store to the specification function.

The properties the source promises are lemmas about those functions. They cover:

- constraint preservation;
- idempotence of the syncs;
- the overwrite semantics of the CSV import;
- the merge semantics of the cleanup;
- the one-log-row-per-subscribed-webhook rule of the dispatcher.

Module by module:

| module | source |
|---|---|
| `Common` | payload fields (missing, null or string) and Python truthiness |
| `Text` | the Python string operations the core uses |
| `Models` | `app/models.py`, plus the `Store` |
| `Resolver` | the `filter_by(...).first()` and `name.contains(...).first()` lookups |
| `IntegrationRoutes` | `app/integrations/routes.py` |
| `InitialSync` | `initial_sync.py` |
| `CsvImport` | `app/utils.py` |
| `WebhookHelper` | `app/webhook_helper.py` |
| `CleanupDuplicates` | `cleanup_duplicate_advertisers.py` |
| `SyncAdvertiserNames` | `sync_advertiser_names_with_agency.py` |

## Model

| member | source | states |
|---|---|---|
| Common.Field.GetOr | app/integrations/routes.py:302-306 | `payload.get(key, default)`: a missing key gives the default, a JSON null gives None, a string gives itself |
| Text.ContainsIffOccurs | sync_advertiser_names_with_agency.py:74 | Python's `sub in s` (and SQL `contains`) holds exactly when `sub` occurs at some position of `s` |
| Text.Lower | app/utils.py:36 | `s.lower()` keeps the length and lower-cases each character |
| Text.LowerAscii | app/utils.py:264 | on ASCII text `lower()` changes exactly the letters A to Z |
| Text.Upper | cleanup_duplicate_advertisers.py:54 | `s.upper()` keeps the length and upper-cases each character |
| Text.TrimLeft | app/utils.py:91 | `lstrip()` removes exactly the leading whitespace: the result is a suffix that starts with a non-space |
| Text.TrimRight | app/utils.py:91 | `rstrip()` removes exactly the trailing whitespace: the result is a prefix that ends with a non-space |
| Text.Strip | app/utils.py:91 | `strip()` leaves no whitespace at either end |
| Text.FirstWord | cleanup_duplicate_advertisers.py:36 | `split()[0]` is None (IndexError) exactly when the text is all whitespace; otherwise it is a non-empty word without spaces |
| Text.SplitOn | initial_sync.py:265-266 | `split(sep)` gives at least one piece, and no piece holds the separator |
| Text.JoinSplit | initial_sync.py:265-266 | joining the pieces of `split(sep)` with `sep` gives the text back |
| Text.BeforeFirst | app/integrations/routes.py:420 | `split('-')[0]` holds no '-' |
| Text.RemoveAll | cleanup_duplicate_advertisers.py:33 | `replace(pat, '')` never lengthens the text and leaves a text without `pat` unchanged |
| Text.Truncate | app/webhook_helper.py:81 | `s[:n]` is a prefix of `s` of length min(len(s), n) |
| Models.AdminIsTeamLead | app/models.py:27-31 | every admin passes `is_team_lead`, and the two checks differ exactly on role "team_lead" |
| Models.CalculatedNetTotal | app/models.py:84-102 | a manual net figure wins; otherwise the net is the retention-weighted sum of the nine channels |
| Models.WeightedSumUnfolded | app/models.py:90-102 | the weighted sum is 0.2·tv + 0.2·cinema + 0.3·radio + 0.5·each of the six other channels |
| Models.WeightedSumBounds | app/models.py:90-102 | with no negative channel the weighted sum lies between 0 and the channels' gross sum |
| Models.NetWithinGross | app/models.py:84-102 | without a manual figure the computed net is never negative and never above the gross |
| Models.LatestSpending | app/models.py:49-52 | `latest_spending_data` is None exactly when the advertiser has no row; otherwise it is one of its rows with the greatest year |
| Models.LastYearGrossSpending | app/models.py:54-58 | 0 without rows, else the grand total of a row of the greatest year |
| Models.LastYearNetSpending | app/models.py:60-64 | 0 without rows, else the computed net of a row of the greatest year |
| Models.RelationshipMarker | app/models.py:134 | the relationship marker is the fixed prefix, the first name, a space and the last name (its length) |
| Models.MarkerIsPrefixedFullName | app/models.py:121-134 | the marker is the prefix followed by `full_name` |
| Models.MarkerOfLongerSurnameContainsShorter | app/integrations/routes.py:311-316 | the marker of "Jo Smith" occurs inside the marker of "Jo Smithson", so the substring filter also selects the other contact's notes |
| Models.WithMarker | app/models.py:133-141 | the activities selected by `description.contains(marker)`: exactly those holding the marker |
| Models.WithoutMarker | app/integrations/routes.py:311-316 | the activities surviving the deletion: exactly those not holding the marker |
| Models.WithoutMarkerIdempotent | app/integrations/routes.py:311-316 | deleting the marked notes twice is deleting them once, and no marked note survives |
| Models.AllMarked | app/integrations/routes.py:311-316 | notes that all hold the marker are all selected and all deleted |
| Models.NoneMarked | app/integrations/routes.py:311-316 | notes that do not hold the marker are never selected and never deleted |
| Models.RelatedAdvertisersProperties | app/models.py:125-147 | `get_related_advertisers` lists the primary advertiser first, each advertiser once, and exactly the primary and the advertisers of notes holding the marker |
| Models.GetRelatedAdvertisers | app/models.py:125-147 | the loop returns the related advertisers as specified |
| Models.DB.WithAdvertiser | app/models.py:33-37 | an inserted advertiser with a free name gets the next id and keeps the store valid |
| Models.DB.WithActivity | app/models.py:149-157 | an activity on a stored advertiser keeps the store valid |
| Models.DB.WithContact | app/models.py:104-115 | a contact with no advertiser, or a stored one, keeps the store valid |
| Models.Store.AddAdvertiser | app/utils.py:168-169 | `session.add` plus `flush`: the advertiser is appended under the next id, which is returned |
| Models.Store.AddActivity | app/integrations/routes.py:138 | `session.add(activity)` appends the activity |
| Models.Store.AddContact | app/integrations/routes.py:216-217 | `session.add(contact)` appends the contact |
| Models.Store.Commit | app/utils.py:189 | committing a state that meets every schema constraint makes it the stored tables |
| Resolver.ByName | app/utils.py:122 | `filter_by(name=n).first()` finds an advertiser named `n`, and is None exactly when the name is free |
| Resolver.ByContaining | app/integrations/routes.py:378-380 | `filter(name.contains(s)).first()` is the first advertiser whose name contains `s`; a None candidate matches nothing |
| Resolver.ResolveId | app/integrations/routes.py:378-384 | the id of that advertiser, present exactly when one contains the candidate |
| Resolver.ExactMatchIsContaining | app/integrations/routes.py:194-196 | a stored exact name is always found by the containment lookup, possibly earlier at another advertiser |
| Resolver.EmptyCandidateResolvesFirst | app/integrations/routes.py:379 | a missing `brand_name` (the empty string) resolves to the first advertiser |
| Resolver.ByNameOfStoredName | app/models.py:35 | with unique names, looking up a stored name finds that advertiser |
| Resolver.ResolvedIdStored | app/integrations/routes.py:382-384 | a resolved id is a stored advertiser's id |
| Resolver.ContactByCrmId | app/integrations/routes.py:272 | the first contact with the CRM id; None exactly when no contact has it |
| Resolver.ContactByEmail | app/integrations/routes.py:278 | the first contact with the email; None exactly when no contact has it |
| Resolver.ContactByName | app/integrations/routes.py:286-289 | the first contact with both names; None exactly when no contact has them |
| Resolver.ContactAt | initial_sync.py:211-214 | a contact of the advertiser with the email; None exactly when there is none |
| IntegrationRoutes.CompanySyncedAsWritten | app/integrations/routes.py:113-139 | as written, a company whose name is new always raises: its note carries the unflushed advertiser's NULL id |
| IntegrationRoutes.CompanySynced | app/integrations/routes.py:113-139 | the intended company sync succeeds exactly when the name is a string, leaves contacts and spending alone, and appends one note |
| IntegrationRoutes.CompanyAdded | app/integrations/routes.py:119-125 | adding a new `ours` advertiser with a free name, plus its note, keeps the store valid |
| IntegrationRoutes.CompanyMarked | app/integrations/routes.py:126-128 | marking a stored advertiser `ours`, plus its note, keeps the store valid |
| IntegrationRoutes.CompanySyncUpserts | app/integrations/routes.py:113-139 | afterwards exactly one advertiser has the company's name; it is `ours` and carries the new note; one is added only when the name was free |
| IntegrationRoutes.CompanySyncTwice | app/integrations/routes.py:113-139 | a second sync of the same company adds no advertiser |
| IntegrationRoutes.BrandAdvertiserName | app/integrations/routes.py:145 | the name is "Company - Brand", 'Unknown' only for a missing company key, "None" for a null; no name when `name` is missing (KeyError) |
| IntegrationRoutes.BrandSyncedAsWritten | app/integrations/routes.py:141-166 | as written, a brand whose name is new always raises (NULL `advertiser_id` on the note) |
| IntegrationRoutes.BrandSynced | app/integrations/routes.py:141-166 | the intended brand sync fails only on a missing `name`; a taken name leaves the advertisers as they were; one note is appended and contacts and spending are untouched |
| IntegrationRoutes.BrandSyncUpserts | app/integrations/routes.py:141-166 | afterwards the store is valid, the brand's advertiser exists, and the new note is on it |
| IntegrationRoutes.PrimaryId | app/integrations/routes.py:188-196 | the primary advertiser is the first brand's resolution, none without brands |
| IntegrationRoutes.RelationshipNotes | app/integrations/routes.py:339-355 | every relationship note holds the contact's marker and is on a stored, non-primary advertiser; at most one per brand |
| IntegrationRoutes.RelationshipNotesCount | app/integrations/routes.py:339-355 | there is exactly one relationship note per brand resolving to a non-primary advertiser |
| IntegrationRoutes.CreationNotes | app/integrations/routes.py:223-254 | every note written on creation is on a stored advertiser |
| IntegrationRoutes.SyncNoteUnmarked | app/integrations/routes.py:246-254 | the "Contact synced" note never holds the relationship marker |
| IntegrationRoutes.CreationMarkerNotes | app/integrations/routes.py:223-254 | the marked notes written on creation are exactly those an update with the same brands writes |
| IntegrationRoutes.CreationNotesShape | app/integrations/routes.py:223-254 | every creation note holds the marker or is the sync note on the primary |
| IntegrationRoutes.ContactSynced | app/integrations/routes.py:168-256 | without a truthy email nothing changes; a known truthy CRM id hands over to the update |
| IntegrationRoutes.ContactCreation | app/integrations/routes.py:187-256 | creation succeeds exactly when neither name is null and `brands` is a list |
| IntegrationRoutes.ContactCreated | app/integrations/routes.py:205-256 | the new contact and its notes keep the store valid |
| IntegrationRoutes.ContactSyncCreates | app/integrations/routes.py:187-256 | creation appends one contact with the first brand's advertiser, the payload's CRM id and email; advertisers and spending are unchanged |
| IntegrationRoutes.NoEmailNoChange | app/integrations/routes.py:171-173 | a payload without an email changes nothing |
| IntegrationRoutes.ContactSyncTwiceNoDuplicate | app/integrations/routes.py:177-185 | the same creation received twice is handled the second time as an update, so no duplicate contact is created |
| IntegrationRoutes.FindTarget | app/integrations/routes.py:268-294 | the target is the first contact by CRM id, else the first by email, else the first by both names (these two backfill the id); none exactly when nothing matches |
| IntegrationRoutes.Merged | app/integrations/routes.py:302-307 | a present key overwrites the field and a missing key keeps it; a null name fails the flush; the CRM id changes only on a backfill |
| IntegrationRoutes.ContactUpdated | app/integrations/routes.py:258-372 | with no target nothing changes; with one the update fails exactly on a null name; advertisers, spending and the number of contacts are unchanged |
| IntegrationRoutes.ContactUpdateRelationships | app/integrations/routes.py:311-359 | afterwards the primary is the first brand's resolution, and the notes holding the marker are exactly the new relationship notes, one per secondary brand |
| IntegrationRoutes.ContactUpdateValid | app/integrations/routes.py:258-372 | an update keeps the store valid |
| IntegrationRoutes.FindTargetStable | app/integrations/routes.py:268-294 | a target rewritten so that it still carries what it was found by is found again at the same place |
| IntegrationRoutes.FoundAgainWithoutId | app/integrations/routes.py:277-294 | without a usable CRM id, a target found by email or by name is found again after the update |
| IntegrationRoutes.TargetStable | app/integrations/routes.py:258-372 | after an update the same payload finds the same contact |
| IntegrationRoutes.ContactUpdateIdempotent | app/integrations/routes.py:258-372 | applying the same update twice gives the same store as applying it once |
| IntegrationRoutes.MergeTwice | app/integrations/routes.py:302-307 | merging a payload into a contact it was already merged into changes nothing |
| IntegrationRoutes.InvoiceLogged | app/integrations/routes.py:374-393 | one invoice note on the resolved advertiser, nothing without one; the store stays valid |
| IntegrationRoutes.StatusUpdateLogged | app/integrations/routes.py:395-413 | one status note on the resolved advertiser, nothing without one; the store stays valid |
| IntegrationRoutes.MissingBrandNameHitsFirst | app/integrations/routes.py:378-380 | an invoice without `brand_name` is logged on the first advertiser |
| IntegrationRoutes.NameKey | app/integrations/routes.py:420 | the campaign's advertiser key holds no '-' |
| IntegrationRoutes.SpendingRow | app/integrations/routes.py:430-433 | the row of (advertiser, year), None exactly when there is none |
| IntegrationRoutes.SetTv | app/integrations/routes.py:430-443 | the (advertiser, year) row exists afterwards with `tv` set; other rows stay; uniqueness is kept |
| IntegrationRoutes.CampaignSynced | app/integrations/routes.py:415-455 | only a null name raises; an empty key changes nothing; advertisers and contacts are never changed |
| IntegrationRoutes.CampaignOverwritesTv | app/integrations/routes.py:427-443 | when the campaign resolves, the current year's row holds the payload's total as `tv`, whatever it held before |
| IntegrationRoutes.SetTvKeepsValid | app/integrations/routes.py:430-455 | setting `tv` and logging the note keeps the store valid |
| IntegrationRoutes.WaveLogged | app/integrations/routes.py:457-478 | only a null campaign name raises; at most one note is added and spending is untouched |
| IntegrationRoutes.AgencyHandler | app/integrations/routes.py:53-78 | the handler each agency-CRM event runs; an unknown event runs none |
| IntegrationRoutes.Respond | app/integrations/routes.py:78-82 | a handler that returns answers 200 with its changes; one that raises answers 500 with nothing stored |
| IntegrationRoutes.AgencyCrmReply | app/integrations/routes.py:40-82 | a sent signature with a non-ASCII character answers 500 (the gate raises outside the `try`); an ASCII signature that does not verify answers 401; otherwise an unknown event answers 200 and changes nothing; 401 and 500 change nothing |
| IntegrationRoutes.TvPlannerReply | app/integrations/routes.py:84-110 | the answer is 200 or 500; 500 changes nothing; an unknown event changes nothing |
| IntegrationRoutes.VerifyWebhookSignature | app/integrations/routes.py:25-30 | the SHA-256 hex digest of the secret followed by the body equals the sent signature |
| IntegrationRoutes.GateRaises | app/integrations/routes.py:30 | with a secret configured, a sent signature holding a non-ASCII character makes `compare_digest` raise TypeError |
| IntegrationRoutes.Rejected | app/integrations/routes.py:45-48 | with a secret configured, an ASCII signature is sent and does not verify |
| IntegrationRoutes.GateOutcomes | app/integrations/routes.py:25-48 | a signed agency-CRM request raises exactly when its signature is not ASCII, is rejected exactly when an ASCII signature differs from the digest, and never both |
| IntegrationRoutes.TvPlannerNeverRejects | app/integrations/routes.py:88-92 | with no TV-planner secret configured, no signature is ever rejected |
| IntegrationRoutes.UnsignedPasses | app/integrations/routes.py:44-48 | a request without a signature header neither raises at the gate nor is rejected |
| IntegrationRoutes.AgencyHandlerValid | app/integrations/routes.py:53-78 | every agency-CRM handler that returns keeps the store valid |
| IntegrationRoutes.ContactSyncedValid | app/integrations/routes.py:168-256 | a contact sync that returns keeps the store valid |
| IntegrationRoutes.CampaignSyncedValid | app/integrations/routes.py:415-455 | a campaign sync that returns keeps the store valid |
| IntegrationRoutes.SyncCompanyToAdvertiser | app/integrations/routes.py:113-139 | the method commits the intended company sync, or leaves the store unchanged when it raises |
| IntegrationRoutes.SyncBrandToAdvertiser | app/integrations/routes.py:141-166 | the method commits the intended brand sync, or leaves the store unchanged |
| IntegrationRoutes.CollectCreationNotes | app/integrations/routes.py:223-254 | the brand loop of `sync_contact` builds exactly the creation notes |
| IntegrationRoutes.CollectRelationshipNotes | app/integrations/routes.py:339-355 | the brand loop of `update_contact` builds exactly the relationship notes |
| IntegrationRoutes.RemoveMarked | app/integrations/routes.py:311-316 | the deletion loop keeps exactly the unmarked activities, in order |
| IntegrationRoutes.SyncContact | app/integrations/routes.py:168-256 | the method commits the contact sync, or leaves the store unchanged |
| IntegrationRoutes.CreateContact | app/integrations/routes.py:187-256 | the method commits the creation path, or leaves the store unchanged |
| IntegrationRoutes.UpdateContact | app/integrations/routes.py:258-372 | the method commits the update, or leaves the store unchanged |
| IntegrationRoutes.CreateInvoiceActivity | app/integrations/routes.py:374-393 | the method stores the invoice note as specified |
| IntegrationRoutes.CreateStatusUpdateActivity | app/integrations/routes.py:395-413 | the method stores the status note as specified |
| IntegrationRoutes.SyncCampaignSpending | app/integrations/routes.py:415-455 | the method commits the campaign sync, or leaves the store unchanged |
| IntegrationRoutes.SetCampaignTv | app/integrations/routes.py:428-455 | the method gets or creates the row, sets `tv` and logs the note |
| IntegrationRoutes.UpdateSpendingFromWave | app/integrations/routes.py:457-478 | the method commits the wave note, or leaves the store unchanged |
| IntegrationRoutes.WebhookAgencyCrm | app/integrations/routes.py:40-82 | the endpoint's status code and the stored tables are those of the agency-CRM reply, 500 for a non-ASCII signature included |
| IntegrationRoutes.HandleAgencyEvent | app/integrations/routes.py:53-82 | the dispatch commits the handler's result, or changes nothing when it raises |
| IntegrationRoutes.WebhookTvPlanner | app/integrations/routes.py:84-110 | the endpoint's status code and the stored tables are those of the TV-planner reply |
| InitialSync.CompanyImported | initial_sync.py:146-172 | a company import touches neither contacts nor spending |
| InitialSync.CompanyImportUpserts | initial_sync.py:146-172 | afterwards exactly one advertiser has the company's name, with status `ours`; a note is written only for a new advertiser; the store stays valid |
| InitialSync.CompanyImportTwice | initial_sync.py:146-172 | importing the same company again changes nothing |
| InitialSync.CrmBrandName | initial_sync.py:176 | the "Company - Brand" name contains the brand's name |
| InitialSync.BrandImported | initial_sync.py:174-198 | a taken name changes nothing; a free one adds an `ours` advertiser under the next id and its note; the store stays valid |
| InitialSync.BrandImportTwice | initial_sync.py:174-198 | importing a brand twice is importing it once, and the brand's advertiser then exists |
| InitialSync.AddedPerBrand | initial_sync.py:205-227 | the brand loop only appends copies of the contact under stored advertisers and keeps one contact per (advertiser, email) |
| InitialSync.AddedPerBrandCovers | initial_sync.py:205-227 | afterwards every brand that resolves has a contact with this email under its advertiser |
| InitialSync.AddedPerBrandNothingNew | initial_sync.py:210-216 | when every resolved brand already has the contact, nothing is added |
| InitialSync.CrmContactImported | initial_sync.py:200-227 | no email changes nothing; only contacts grow; it fails only at the flush of a null name |
| InitialSync.CrmContactImportProperties | initial_sync.py:200-227 | the import keeps the store valid and one contact per (advertiser, email), covers every resolved brand, and a second import changes nothing |
| InitialSync.TvNameRoundTrip | initial_sync.py:265-266 | the first name holds no space, and first name + " " + last name gives the name back |
| InitialSync.WithTvContact | initial_sync.py:256-272 | the advertiser has a contact with this email afterwards; at most one contact is added, and only contacts change |
| InitialSync.TvAdvertiser | initial_sync.py:234-254 | the lookup fails exactly on a null company; otherwise the store stays valid, only advertisers may grow, and the advertiser found is stored |
| InitialSync.TvAdvertiserStable | initial_sync.py:234-254 | once created, the advertiser is found again without creating another |
| InitialSync.TvContactImported | initial_sync.py:229-272 | no email changes nothing; it raises exactly for a null company; at most one advertiser is added |
| InitialSync.TvContactImportProperties | initial_sync.py:229-272 | the import keeps the store valid and one contact per (advertiser, email), and importing it again changes nothing |
| InitialSync.TvAdvertiserIgnoresContacts | initial_sync.py:234-254 | the advertiser lookup does not depend on the contacts table |
| InitialSync.WithTvContactValid | initial_sync.py:256-272 | filing a contact under a stored advertiser keeps the store valid |
| InitialSync.InvoiceImportNote | initial_sync.py:290-298 | the invoice note is on the advertiser and holds "Invoice: <date>" |
| InitialSync.RecordedAt | initial_sync.py:282-287 | the existing-invoice query finds a note of the advertiser holding the marker, None exactly when there is none |
| InitialSync.InvoiceImported | initial_sync.py:274-299 | an invoice import adds at most one note, changes nothing else, and keeps the store valid |
| InitialSync.InvoiceImportOnce | initial_sync.py:274-299 | the resolved advertiser ends with the invoice recorded; a note is added only when none was there; a second import changes nothing |
| InitialSync.StatusImported | initial_sync.py:301-316 | a status import changes only the activities and keeps the store valid |
| InitialSync.StatusImportMatchesWebhook | initial_sync.py:301-316 | the imported status note is the status-update webhook's note when the author is the system user |
| InitialSync.RaisedTv | initial_sync.py:343-359 | the (advertiser, year) row exists, with `tv` raised to the total when the total is positive; uniqueness is kept |
| InitialSync.RaisedTvNeverLowers | initial_sync.py:343-359 | no row loses `tv`, and a positive total leaves the row at or above it |
| InitialSync.RaisedTvTwice | initial_sync.py:343-359 | raising with the same total twice is raising once |
| InitialSync.CampaignAdvertiser | initial_sync.py:327-340 | the lookup keeps the store valid, only advertisers may grow (by at most one), and the advertiser is stored |
| InitialSync.CampaignAdvertiserStable | initial_sync.py:327-340 | a created campaign advertiser is found again |
| InitialSync.CampaignImported | initial_sync.py:318-370 | an empty key changes nothing; otherwise exactly one note is appended; contacts are untouched |
| InitialSync.CampaignApplied | initial_sync.py:342-370 | once the advertiser is known, only spending changes and one campaign note is appended |
| InitialSync.CampaignImportValid | initial_sync.py:318-370 | a campaign import keeps the store valid |
| InitialSync.CampaignImportRaisesTv | initial_sync.py:318-370 | no `tv` figure is lowered, and the current year's row is at least a positive total |
| InitialSync.CampaignImportTwice | initial_sync.py:318-370 | importing the same campaign twice leaves the spending as importing it once |
| InitialSync.CampaignAdvertiserIgnoresTables | initial_sync.py:327-340 | the campaign lookup depends only on the advertisers |
| InitialSync.StepsValid | initial_sync.py:50-51 | a feed loop of constraint-keeping steps keeps the constraints |
| InitialSync.Capped | initial_sync.py:83 | `invoices[:50]`: a prefix of at most fifty, the feed itself when it is short enough |
| InitialSync.StepsKeepConstraints | initial_sync.py:146-370 | every import step keeps the store valid |
| InitialSync.InitialSyncValid | initial_sync.py:372-396 | a committed initial sync leaves a valid store |
| InitialSync.LateInvoicesIgnored | initial_sync.py:83-84 | invoices after the fiftieth have no effect |
| InitialSync.SyncCompanyToAdvertiser | initial_sync.py:146-172 | the method stores the company import as specified |
| InitialSync.SyncBrandToAdvertiser | initial_sync.py:174-198 | the method stores the brand import as specified |
| InitialSync.CollectBrandContacts | initial_sync.py:205-227 | the brand loop builds exactly the per-brand contacts |
| InitialSync.SyncContactFromCrm | initial_sync.py:200-227 | the method stores the contact import, or leaves the store unchanged when the flush fails |
| InitialSync.FindOrCreateTvAdvertiser | initial_sync.py:234-254 | the method finds or creates the advertiser as specified, changing nothing on failure |
| InitialSync.SyncContactFromTv | initial_sync.py:229-272 | the method stores the TV-planner contact import, or leaves the store unchanged |
| InitialSync.CreateInvoiceActivitySync | initial_sync.py:274-299 | the method stores the invoice import as specified |
| InitialSync.CreateStatusActivitySync | initial_sync.py:301-316 | the method stores the status import as specified |
| InitialSync.SyncCampaignSpendingData | initial_sync.py:318-370 | the method stores the campaign import as specified |
| InitialSync.ApplyCampaign | initial_sync.py:342-370 | the method updates the row and adds the note as specified |
| InitialSync.FindOrCreateCampaignAdvertiser | initial_sync.py:327-340 | the method finds or creates the campaign's advertiser as specified |
| InitialSync.UpdateTv | initial_sync.py:343-359 | the method computes the raised rows |
| InitialSync.PullCompanies | initial_sync.py:47-54 | the companies loop gives the feed's fold over the store |
| InitialSync.PullBrands | initial_sync.py:58-65 | the brands loop gives the feed's fold |
| InitialSync.PullCrmContacts | initial_sync.py:69-76 | the contacts loop gives the feed's fold; a failed flush ends the run |
| InitialSync.PullInvoices | initial_sync.py:80-87 | the invoices loop gives the feed's fold |
| InitialSync.PullStatusUpdates | initial_sync.py:91-98 | the status-updates loop gives the feed's fold |
| InitialSync.PullCampaigns | initial_sync.py:115-130 | the campaigns loop gives the feed's fold |
| InitialSync.PullTvContacts | initial_sync.py:134-141 | the TV contacts loop gives the feed's fold |
| InitialSync.SyncAllFromAgencyCrm | initial_sync.py:24-101 | the agency-CRM pass is the five feeds in order |
| InitialSync.SyncAllFromTvPlanner | initial_sync.py:103-144 | the TV-planner pass is campaigns then contacts |
| InitialSync.InitialSyncRun | initial_sync.py:372-396 | `main`: both sources into one session, then one commit; a failed flush loses the whole run |
| InitialSync.RunInitialSync | initial_sync.py:372-396 | both passes, then the commit; a failure leaves the store unchanged |
| CsvImport.ClassifyKeyRules | app/utils.py:34-62 | every header holding 'adver' is the advertiser column and only those; only "tv" exactly is TV; outdoor-static needs both words, grand total both words |
| CsvImport.AdverSubsumesLongForm | app/utils.py:37 | the 'a_adver_e' test is subsumed by 'adver' |
| CsvImport.ShortKeyMatchesNoKeyword | app/utils.py:57-58 | the key "tv" matches no earlier keyword, so the exact test is reached |
| CsvImport.ClassifyKey | app/utils.py:33-62 | the rename rules tried in order, the first match winning; an unmatched header keeps its name |
| CsvImport.Classified | app/utils.py:34-62 | one classification per header column |
| CsvImport.ClassifiedAt | app/utils.py:34-62 | each column is classified on its own header |
| CsvImport.IndoorTvIsNotTv | app/utils.py:45-46 | "Indoor TV" is the indoor-TV column, not TV |
| CsvImport.OutdoorAloneIsUnmapped | app/utils.py:53-54 | an "Outdoor" column without 'static' is not renamed |
| CsvImport.RenamedTwice | app/utils.py:33-62 | two header columns renamed to one field; such an upload fails before any cell is read |
| CsvImport.ColumnIndex | app/utils.py:69-70 | the position of the column renamed to the field, None exactly when there is none |
| CsvImport.CellOf | app/utils.py:72-75 | a column the file lacks reads as empty; the upload reads cells only when each field names at most one column |
| CsvImport.KeepNumeric | app/utils.py:102 | `re.sub(r'[^\d.,]', '', s)` keeps only digits, '.' and ',' |
| CsvImport.ParseDecimal | app/utils.py:109-112 | `float()` on such text succeeds exactly without a comma, with at most one point and some digit; the value is never negative |
| CsvImport.CleanNumber | app/utils.py:87-112 | `clean_number` never returns a negative figure |
| CsvImport.KeepNumericStrip | app/utils.py:91 | stripping does not change the numeric characters |
| CsvImport.KeepNumericRemoveSpaces | app/utils.py:98 | removing spaces does not change the numeric characters |
| CsvImport.CleanedTextIsNumericPart | app/utils.py:87-106 | what reaches `float()` is exactly the non-empty numeric part of the input |
| CsvImport.NullTokensReadAsZero | app/utils.py:88-95 | each null token reads as 0 through the numeric path too |
| CsvImport.CleanNumberReference | app/utils.py:87-112 | `clean_number` is "parse the numeric characters, else 0": the token checks change nothing |
| CsvImport.OtherCharIgnored | app/utils.py:102 | any character other than a digit, '.' or ',' can be removed from a cell without changing its figure |
| CsvImport.SpacedThousands | app/utils.py:86-98 | for all texts, a space inside a figure is read through |
| CsvImport.SpacedThousandsExample | app/utils.py:86-98 | " 14 722 " reads as 14722 |
| CsvImport.MinusSignDropped | app/utils.py:102 | for all texts, a leading minus sign is dropped, so a negative figure reads as its magnitude |
| CsvImport.MinusSignDroppedExample | app/utils.py:102 | "-250" reads as 250 |
| CsvImport.CommaReadsAsZero | app/utils.py:109-112 | any cell with a comma reads as 0, because `float()` rejects the comma |
| CsvImport.FilledZeroReadsAsZero | app/utils.py:75-78 | the filled text "0" reads as 0 |
| CsvImport.MissingFiguresAreZero | app/utils.py:64-78 | a missing column or an empty cell gives the figure 0 |
| CsvImport.YearOf | app/utils.py:174 | without a year column `int(row['year'])` raises |
| CsvImport.CleanRow | app/utils.py:159-186 | a row is read exactly when it has a name and a readable year, and it keeps both |
| CsvImport.CleanTable | app/utils.py:159-186 | the table is read exactly when every row is, one row each |
| CsvImport.DistinctNames | app/utils.py:117 | `unique()` holds each name of the file once, and only those |
| CsvImport.Without | app/utils.py:121-125 | the rows kept by the deletion: exactly those of advertisers not named |
| CsvImport.SpendingOf | app/models.py:43 | an advertiser's rows: exactly those pointing at it |
| CsvImport.Spendings | app/utils.py:172-186 | one row per file row, each under the advertiser its name finds |
| CsvImport.AppendRow | app/utils.py:159-187 | one pass adds at most one non-qualified advertiser under the next id, and always one row for the name's advertiser |
| CsvImport.AppendRowsFacts | app/utils.py:159-187 | the loop leaves every name found and the rows written in file order |
| CsvImport.AppendRowsConsistent | app/utils.py:159-187 | the loop keeps every constraint but spending uniqueness |
| CsvImport.CsvImported | app/utils.py:119-198 | the commit raises exactly when the deletion and the import leave two rows for one (advertiser, year) |
| CsvImport.ImportKeepsValid | app/utils.py:119-198 | a committed import leaves a valid store |
| CsvImport.ImportOverwritesSpending | app/utils.py:119-189 | each named advertiser holds exactly the file's rows for it, in file order; every other advertiser keeps its rows; new advertisers are the file's new names |
| CsvImport.SpendingAfterImport | app/utils.py:119-189 | the rows of one advertiser after the import: the file's when named there, the old ones otherwise |
| CsvImport.SpendingsUniqueIff | app/models.py:82 | the written rows clash exactly when two file rows repeat an (advertiser, year) |
| CsvImport.ImportRaisesIffRepeated | app/utils.py:189-198 | an import fails exactly when the file repeats an (advertiser, year) |
| CsvImport.HasKeywordIff | app/utils.py:265 | the keyword scan succeeds exactly when some keyword occurs in the lower-cased name |
| CsvImport.SetOurs | app/utils.py:254-259 | the bulk update changes each advertiser by the per-agency rule |
| CsvImport.SweptStatus | app/utils.py:219-270 | a non-qualified advertiser with one of our agencies becomes ours; a remaining non-qualified one with a public-sector name becomes non-market |
| CsvImport.Swept | app/utils.py:219-270 | the sweep gives each advertiser its swept status and changes nothing else |
| CsvImport.SweepRules | app/utils.py:219-270 | only non-qualified advertisers change; an agency of ours wins; non-market only for a public-sector name; names, ids and agencies stay |
| CsvImport.SweepIdempotent | app/utils.py:219-270 | a second sweep changes nothing and reports 0 |
| CsvImport.SweptValid | app/utils.py:219-270 | the sweep keeps the store valid |
| CsvImport.ChangesBulk | app/utils.py:254-259 | each bulk update adds its row count to the reported total |
| CsvImport.SweptInTwoPasses | app/utils.py:253-267 | the bulk updates followed by the keyword pass give the swept status |
| CsvImport.MarkedAfterOurs | app/utils.py:253-270 | the keyword pass after the bulk updates gives the swept list, and the two passes' counts add up to the number of advertisers whose status changed |
| CsvImport.LeadStatusColor | app/utils.py:200-211 | the badge colour of a status text, "secondary" for unknown texts |
| CsvImport.StatusColors | app/utils.py:200-211 | network and get-info share "secondary" with non-qualified; every other status has a colour of its own |
| CsvImport.CsvUploaded | app/utils.py:5-198 | `process_csv_upload`: rename, clean, overwrite the named advertisers' spending, commit, then sweep; a failure rolls back |
| CsvImport.UploadFailsIff | app/utils.py:5-198 | the upload fails exactly when the file is unreadable, lacks the advertiser column, renames two columns to one field, has a row without a name or readable year, or repeats an (advertiser, year) |
| CsvImport.RowsUploadFailsIff | app/utils.py:119-198 | on clean rows the upload fails exactly when an (advertiser, year) repeats |
| CsvImport.RowsUploadKeepsValid | app/utils.py:119-198 | on clean rows a failure leaves the store as it was; a success keeps it valid and reports every row |
| CsvImport.UploadKeepsValid | app/utils.py:5-198 | a failed upload (including one whose header renames two columns to one field) leaves the store as it was; a successful one keeps it valid and reports one record per data row |
| CsvImport.ClassifyHeader | app/utils.py:34-62 | the rename loop gives the header's classification |
| CsvImport.NameSet | app/utils.py:117 | the set of the file's names |
| CsvImport.ClearedStep | app/utils.py:121-125 | one pass of the deletion loop deletes the rows of the advertiser the next name finds |
| CsvImport.DeleteSpendingOf | app/utils.py:121-127 | the deletion loop leaves the store cleared of the named advertisers' rows |
| CsvImport.ImportRow | app/utils.py:160-187 | one pass of the import loop as specified |
| CsvImport.ImportRows | app/utils.py:159-187 | the import loop as specified |
| CsvImport.SetOursForAgencies | app/utils.py:253-259 | the bulk updates give each advertiser its per-agency status and return the number changed |
| CsvImport.MarkNonMarket | app/utils.py:261-267 | the keyword pass marks the advertisers and returns how many changed |
| CsvImport.UpdateLeadStatusesByAgency | app/utils.py:219-270 | the sweep leaves every advertiser swept and returns the number whose status changed |
| CsvImport.ImportSpending | app/utils.py:119-198 | the method commits the import, or rolls back to the old store |
| CsvImport.ProcessCsvUpload | app/utils.py:5-198 | the method's report and store are those of the upload, which fails on a header that renames two columns to one field |
| WebhookHelper.Subscribed | app/webhook_helper.py:47-51 | the selected webhooks are exactly the active ones listing the event |
| WebhookHelper.SubscribedDistinct | app/webhook_helper.py:47-51 | selection keeps the webhook ids unique |
| WebhookHelper.SelectWebhooks | app/webhook_helper.py:47-51 | the selection loop returns the subscribed webhooks in table order |
| WebhookHelper.SignatureVerifies | app/integrations/routes.py:25-30 | a receiver holding the same secret accepts what the sender signed |
| WebhookHelper.LogFor | app/webhook_helper.py:76-99 | a log row records the webhook, event and payload, with the response status and at most 1000 characters of its text, or status 0 and the error |
| WebhookHelper.Requests | app/webhook_helper.py:58-71 | one request per webhook, each to its url with the event, the body and a signature its secret accepts |
| WebhookHelper.Dispatched | app/webhook_helper.py:55-103 | one log row per webhook, in order; a failed call does not stop the loop |
| WebhookHelper.LogsExactlyForSubscribed | app/webhook_helper.py:39-103 | a webhook gets a log row exactly when it is active and lists the event, and then exactly one |
| WebhookHelper.LogOfWebhook | app/webhook_helper.py:55-103 | the i-th log row belongs to the i-th selected webhook |
| WebhookHelper.WebhookLogTable.constructor | app/models.py:193-201 | the log table starts empty |
| WebhookHelper.TriggerWebhooks | app/webhook_helper.py:39-103 | the requests sent and the log rows appended are those of the subscribed webhooks |
| WebhookHelper.AdvertiserWithId | app/webhook_helper.py:18-22 | the stored advertiser with the id |
| WebhookHelper.BrandsOf | app/webhook_helper.py:16-22 | one {id, name} per related advertiser, in order, each a stored advertiser's id and name |
| WebhookHelper.CollectBrands | app/webhook_helper.py:16-22 | the loop builds exactly those brands |
| WebhookHelper.RelatedAreStored | app/models.py:125-147 | every advertiser related to a stored contact is stored |
| WebhookHelper.ContactUpdateOf | app/webhook_helper.py:25-34 | the payload carries the contact's CRM id, names and email, and one brand per related advertiser |
| WebhookHelper.ContactUpdateBrands | app/webhook_helper.py:14-34 | the brands list the primary first, each advertiser once, and exactly the primary and those linked by a relationship note |
| WebhookHelper.NotifyContactUpdated | app/webhook_helper.py:10-37 | the payload is the contact's, sent to the webhooks subscribed to 'contact.updated' |
| CleanupDuplicates.CleanName | cleanup_duplicate_advertisers.py:33 | removing the legal-form suffixes never lengthens the name |
| CleanupDuplicates.GroupKey | cleanup_duplicate_advertisers.py:33-36 | the key is None (IndexError) exactly when the cleaned name has no word; otherwise it is non-empty |
| CleanupDuplicates.Members | cleanup_duplicate_advertisers.py:29-37 | `groups[key]` holds exactly the advertisers with that key, in store order |
| CleanupDuplicates.InOwnGroup | cleanup_duplicate_advertisers.py:37 | an advertiser is in the group of its own key |
| CleanupDuplicates.KeysInOrder | cleanup_duplicate_advertisers.py:29-45 | each key once, and every advertiser's key among them |
| CleanupDuplicates.ByPreference | cleanup_duplicate_advertisers.py:53-61 | the sort puts every preferred (legal-form) member before the others, keeping only the group's members |
| CleanupDuplicates.ByPreferenceDistinct | cleanup_duplicate_advertisers.py:61 | the sorted group lists no advertiser twice |
| CleanupDuplicates.ByPreferencePermutation | cleanup_duplicate_advertisers.py:61 | the sort is a permutation of the group |
| CleanupDuplicates.PreferredHead | cleanup_duplicate_advertisers.py:61-62 | the stable sort's head is the first preferred member in store order, else the first member |
| CleanupDuplicates.Primary | cleanup_duplicate_advertisers.py:62 | the primary is a stored advertiser of the same group |
| CleanupDuplicates.SingletonIsPrimary | cleanup_duplicate_advertisers.py:46 | an advertiser alone in its group is its own primary |
| CleanupDuplicates.RedirectsCover | cleanup_duplicate_advertisers.py:62-81 | an advertiser is redirected exactly when it is not its group's primary, and then to that primary |
| CleanupDuplicates.PrimaryOfPrimary | cleanup_duplicate_advertisers.py:62 | a primary is its own primary |
| CleanupDuplicates.RedirectTargetKept | cleanup_duplicate_advertisers.py:69-85 | a redirect target is stored and never deleted |
| CleanupDuplicates.RedirectCount | cleanup_duplicate_advertisers.py:87 | the redirected ids number `duplicates_found` |
| CleanupDuplicates.RepointContacts | cleanup_duplicate_advertisers.py:71-73 | each contact is repointed by the redirects, the table keeping its length |
| CleanupDuplicates.RepointActivities | cleanup_duplicate_advertisers.py:78-80 | each activity is repointed by the redirects, the table keeping its length |
| CleanupDuplicates.ContactsRepointed | cleanup_duplicate_advertisers.py:74 | `contacts_updated` is at most the number of contacts, 0 with no redirect |
| CleanupDuplicates.ActivitiesRepointed | cleanup_duplicate_advertisers.py:81 | `activities_updated` is at most the number of activities, 0 with no redirect |
| CleanupDuplicates.WithoutMerged | cleanup_duplicate_advertisers.py:83-85 | exactly the non-duplicates stay, in order |
| CleanupDuplicates.ActivitiesWithoutMerged | app/models.py:44 | as written, exactly the activities of non-duplicates stay, and the table loses as many as the script counts updated |
| CleanupDuplicates.SpendingWithoutMerged | app/models.py:43 | exactly the rows of non-duplicates stay: the rest go with their advertiser |
| CleanupDuplicates.WithoutMergedNames | cleanup_duplicate_advertisers.py:83-85 | deleting advertisers keeps names unique |
| CleanupDuplicates.WithoutMergedIds | cleanup_duplicate_advertisers.py:83-85 | the ids left are the old ids less the deleted ones |
| CleanupDuplicates.WithoutMergedCount | cleanup_duplicate_advertisers.py:85 | the deletion removes as many advertisers as are redirected |
| CleanupDuplicates.CleanedBy | cleanup_duplicate_advertisers.py:25-91 | the intended merge: duplicates deleted with their spending, contacts and activities moved to the primary |
| CleanupDuplicates.CleanedAsWritten | cleanup_duplicate_advertisers.py:68-91 | the store the script as written commits: the intended merge but with the duplicates' activities deleted (Findings row 3) |
| CleanupDuplicates.CleanedValid | cleanup_duplicate_advertisers.py:25-91 | the merged store meets every constraint |
| CleanupDuplicates.CleanedRefsOk | cleanup_duplicate_advertisers.py:69-85 | every reference in the merged store names a kept advertiser |
| CleanupDuplicates.CleanupKeepsPrimaries | cleanup_duplicate_advertisers.py:62-85 | an advertiser survives exactly when it is its group's primary |
| CleanupDuplicates.CleanupRepointsContact | cleanup_duplicate_advertisers.py:69-75 | a contact of a duplicate now belongs to the primary; others are as they were |
| CleanupDuplicates.AsWrittenLosesActivities | cleanup_duplicate_advertisers.py:77-84 | as written, an activity of a duplicate is deleted with it, where the intended merge keeps every activity |
| CleanupDuplicates.CleanupRepointsActivity | cleanup_duplicate_advertisers.py:77-81 | an activity of a duplicate now belongs to the primary |
| CleanupDuplicates.CleanupSpending | app/models.py:43 | a spending row survives exactly when its advertiser is a primary |
| CleanupDuplicates.RemovedCount | cleanup_duplicate_advertisers.py:85-87 | `advertisers_removed` equals `duplicates_found` and the number of rows the table lost |
| CleanupDuplicates.NothingToMerge | cleanup_duplicate_advertisers.py:89-100 | with no group of two, nothing changes and every counter is 0 |
| CleanupDuplicates.KeptIffPrimary | cleanup_duplicate_advertisers.py:62-85 | the kept advertisers are exactly the primaries |
| CleanupDuplicates.KeptRedirectsNothing | cleanup_duplicate_advertisers.py:45-87 | among the kept advertisers nothing is redirected any more |
| CleanupDuplicates.CleanupIdempotent | cleanup_duplicate_advertisers.py:25-91 | merging a merged store changes nothing |
| CleanupDuplicates.CleanupTwice | cleanup_duplicate_advertisers.py:25-100 | a second run finds no duplicates and reports zeros |
| CleanupDuplicates.Cleanup | cleanup_duplicate_advertisers.py:11-106 | the script fails exactly when some name has no word; otherwise the store stays valid, the counters match the rows removed, and no duplicate means no change |
| CleanupDuplicates.CleanupIdempotentScript | cleanup_duplicate_advertisers.py:11-106 | the script on its own result succeeds and finds nothing |
| CleanupDuplicates.RepointContactsOf | cleanup_duplicate_advertisers.py:69-75 | the loop repoints the contacts and counts `contacts_updated` |
| CleanupDuplicates.RepointActivitiesOf | cleanup_duplicate_advertisers.py:77-81 | the loop repoints the activities and counts `activities_updated` |
| CleanupDuplicates.DeleteMerged | cleanup_duplicate_advertisers.py:83-85 | the loop deletes exactly the duplicates |
| CleanupDuplicates.DeleteMergedSpending | app/models.py:43 | the cascade deletes exactly the duplicates' spending rows |
| CleanupDuplicates.AppendStep | cleanup_duplicate_advertisers.py:37 | an advertiser of a known key is appended to its group |
| CleanupDuplicates.NewKeyStep | cleanup_duplicate_advertisers.py:37 | an advertiser of a new key starts its group and the key joins the order |
| CleanupDuplicates.GroupAdvertisers | cleanup_duplicate_advertisers.py:29-37 | the grouping loop fails exactly when a name has no key, and otherwise builds every group in first-met key order |
| CleanupDuplicates.CollectRedirects | cleanup_duplicate_advertisers.py:45-87 | the loop over groups gives the redirects and `duplicates_found` |
| CleanupDuplicates.MergeGroups | cleanup_duplicate_advertisers.py:25-91 | the body groups, merges and commits, or changes nothing when a key fails |
| CleanupDuplicates.CleanupAdvertisers | cleanup_duplicate_advertisers.py:11-106 | True with the merged store, or False with nothing changed |
| SyncAdvertiserNames.CompanyOf | sync_advertiser_names_with_agency.py:49-50 | a brand is grouped exactly when its `company_name` is a non-empty string |
| SyncAdvertiserNames.Formatted | sync_advertiser_names_with_agency.py:81 | "Brand (Company)" is missing exactly when a key is missing (KeyError); a null renders "None" |
| SyncAdvertiserNames.CompaniesProperties | sync_advertiser_names_with_agency.py:47-53 | the keys of `company_to_brands` are distinct, and are exactly the brands' companies |
| SyncAdvertiserNames.BrandsOfProperties | sync_advertiser_names_with_agency.py:47-53 | a company's list holds brands of that company only, and all of them |
| SyncAdvertiserNames.FirstOfGroup | sync_advertiser_names_with_agency.py:68 | the first brand of a company's list is that company's first brand in the response |
| SyncAdvertiserNames.NoneOfCompany | sync_advertiser_names_with_agency.py:47-53 | a company no brand has gets an empty list |
| SyncAdvertiserNames.GroupNonEmpty | sync_advertiser_names_with_agency.py:51-53 | every key has at least one brand, so `brands[0]` exists |
| SyncAdvertiserNames.GroupsCoverCompanies | sync_advertiser_names_with_agency.py:47-53 | only brands without a company are left out of the grouping |
| SyncAdvertiserNames.MatchedCompany | sync_advertiser_names_with_agency.py:65-77 | an exact company key wins, else the first key in insertion order related either way case-insensitively; none exactly when nothing is related |
| SyncAdvertiserNames.MatchedBrand | sync_advertiser_names_with_agency.py:63-77 | the matched brand is a response brand with a company, present exactly when a company matches |
| SyncAdvertiserNames.Renamed | sync_advertiser_names_with_agency.py:79-86 | only the name changes: an unmatched advertiser stays, a matched one gets its "Brand (Company)" name |
| SyncAdvertiserNames.RenameAll | sync_advertiser_names_with_agency.py:59-90 | the loop renames each advertiser in place, keeping the order and length |
| SyncAdvertiserNames.RenamesCount | sync_advertiser_names_with_agency.py:83-86 | `updated_count` is the number of advertisers whose name changed |
| SyncAdvertiserNames.Missing | sync_advertiser_names_with_agency.py:94-105 | every name listed is a formatted brand name no advertiser has, and every such name is listed |
| SyncAdvertiserNames.NewRows | sync_advertiser_names_with_agency.py:100-104 | one non-qualified advertiser per missing name, with consecutive new ids |
| SyncAdvertiserNames.FetchFailureChangesNothing | sync_advertiser_names_with_agency.py:26-38 | a failed fetch returns False before anything is touched |
| SyncAdvertiserNames.RenameKeepsIds | sync_advertiser_names_with_agency.py:79-86 | renaming keeps every id, so references stay valid |
| SyncAdvertiserNames.NewRowsOrdered | sync_advertiser_names_with_agency.py:100-104 | the new rows take rising ids from the next id on |
| SyncAdvertiserNames.Sync | sync_advertiser_names_with_agency.py:11-124 | the intended run: rename, add every missing brand, commit; a failed fetch, a missing key or a name taken twice changes nothing |
| SyncAdvertiserNames.SyncAsWritten | sync_advertiser_names_with_agency.py:94-124 | the run as written: a missing brand raises before the commit, so only a run with none commits its renames (Findings row 2) |
| SyncAdvertiserNames.SyncValid | sync_advertiser_names_with_agency.py:43-118 | the intended sync leaves a store that meets every constraint |
| SyncAdvertiserNames.SyncCoversBrands | sync_advertiser_names_with_agency.py:92-105 | after the intended sync every brand's "Brand (Company)" name is an advertiser's name |
| SyncAdvertiserNames.SyncTouchesOnlyAdvertisers | sync_advertiser_names_with_agency.py:43-109 | only advertiser names change and advertisers are added; the other tables are untouched |
| SyncAdvertiserNames.AsWrittenFailsOnMissingBrand | sync_advertiser_names_with_agency.py:100-103 | as written, any missing brand makes the script return False, so nothing is stored |
| SyncAdvertiserNames.AsWrittenAgreesWithoutMissing | sync_advertiser_names_with_agency.py:92-118 | when no brand is missing, the script as written and the intended sync agree |
| SyncAdvertiserNames.AsWrittenCounterexample | sync_advertiser_names_with_agency.py:96-109 | on an empty store with one brand "B" of company "C", the script fails as written and adds "B (C)" as intended |
| SyncAdvertiserNames.GroupBrands | sync_advertiser_names_with_agency.py:47-53 | the grouping loop builds exactly `company_to_brands` |
| SyncAdvertiserNames.MatchBrand | sync_advertiser_names_with_agency.py:63-77 | the direct-then-partial match picks the matched brand |
| SyncAdvertiserNames.RenameOne | sync_advertiser_names_with_agency.py:60-88 | the loop body renames one advertiser as specified; it fails only when some brand lacks a key the formatting needs |
| SyncAdvertiserNames.RenameAdvertisers | sync_advertiser_names_with_agency.py:59-90 | the renaming loop gives the renamed advertisers and the count, or fails on a KeyError |
| SyncAdvertiserNames.MissingBrands | sync_advertiser_names_with_agency.py:94-105 | the missing-brand loop gives the missing names, or fails on a KeyError |
| SyncAdvertiserNames.SyncedWith | sync_advertiser_names_with_agency.py:43-118 | when the renamed names stay unique, the intended sync is the loops' renames and additions; otherwise it fails |
| SyncAdvertiserNames.SyncNames | sync_advertiser_names_with_agency.py:11-124 | True with the intended renames and additions committed and counted, or False with nothing changed |

## Left out

- Reading the CSV file (`app/utils.py:8-31`): the encodings, separators and pandas typing. The
  model takes the file as an optional header-and-rows table, and how a year cell is typed is a
  parameter (`readYear`).
- `float()` and floating-point arithmetic: figures are exact reals. `format_currency`
  (`app/utils.py:213-217`) is not modelled, because it only formats a float for display.
- `str.lower()`/`str.upper()` cover ASCII and the Lithuanian letters of the keyword list. Other
  Unicode case mappings are not modelled.
- CsvImport.RenamedTwice: any field named by two columns fails the upload. When the shared field is
  a figure or the year and the file has no data rows, no cell is cleaned or converted, and whether
  pandas raises then depends on its handling of empty frames; the model fails such an upload too.
- CsvImport.KeepNumeric: keeps the ASCII digits only. Python's `\d` also keeps the other Unicode
  decimal digits (Arabic-Indic, full-width and so on), which `float()` then parses; the model reads
  those characters as removed, so `CsvImport.CleanNumber` is not modelled for such cells.
- SQL `LIKE` as used by `contains`: the database's case folding and the `%`/`_` wildcards inside
  a candidate are not modelled. Containment is exact and case-sensitive.
- IntegrationRoutes.AgencyCrmReply: the body is taken already decoded. With a signature sent and a
  body that is not UTF-8, `request.data.decode()` raises before the `try` (`app/integrations/routes.py:47`)
  and Flask answers 500; the model has no such body.
- IntegrationRoutes.WebhookAgencyCrm: as for `AgencyCrmReply`, a body that is not UTF-8 is not
  modelled.
- HTTP requests and responses, SHA-256 and `json.dumps`: these are parameters, and a fetch
  outcome is an input. Timestamps (`created_at`, `updated_at`, `triggered_at`, `updated_at` in a
  webhook payload) and the current year are parameters or are left out.
- Printed and logged messages, exception texts, and the text of the success message of
  `process_csv_upload`. The model keeps the counts it reports.
- The system user's creation in `initial_sync.py:31-42`: the user id is a parameter.
- The pull endpoints `sync_from_agency_crm` and `sync_from_tv_planner`
  (`app/integrations/routes.py:481-564`): they are HTTP-driven loops over the same handlers, and
  they are not part of this model.
- The TV-planner spending fetch per campaign (`initial_sync.py:119-126`): the model takes each
  campaign with its merged spending fields as given.
- Cascade deletion of lead-status history and attachments (`app/models.py:45-46`): those tables
  are not part of this model. Cascade deletion of spending rows is modelled.
- The cleanup script applies its repointing group by group. The model applies one map from each
  duplicate to its primary, table by table. For advertisers, contacts and spending rows the end
  state is the same because groups are disjoint and no primary is a duplicate. For activities it
  is not: the script's delete cascade removes them (see Findings).
- CleanupDuplicates.MergeGroups: commits the intended merge, in which a duplicate's activities are
  repointed to the primary. The script as written deletes them with the duplicate; that store is
  `CleanupDuplicates.CleanedAsWritten`, recorded under Findings.
- CleanupDuplicates.CleanupAdvertisers: as for `MergeGroups`, the committed store keeps the
  duplicates' activities under their primaries, which the script as written does not.
- CleanupDuplicates.RepointActivities: states the intended repointing. As written, the repointed
  activities are deleted at the commit (Findings).
- CleanupDuplicates.RepointActivitiesOf: as for `RepointActivities`, the loop's repointing is
  undone by the delete cascade in the script as written.
- CleanupDuplicates.CleanupRepointsActivity: the corrected merge; the script as written deletes
  such an activity (`CleanupDuplicates.AsWrittenLosesActivities`).
- Unique constraints are checked on the final state of a transaction, not statement by
  statement. A swap of two names in one flush could be refused by the database and is accepted by
  the model.
- Payloads are modelled as JSON objects whose fields are strings, nulls or missing. A number in a
  text-only field (an id, a date, an amount) is carried as the text Python prints for it.
  Malformed payloads of other shapes are not modelled.
- Fields the source reads by subscript are taken to be present strings: the company name
  (`InitialSync.CrmCompany.name`, `initial_sync.py:148`), the brand name
  (`InitialSync.CrmBrand.name`, `initial_sync.py:176`), each brand's `name` in a contact's brand
  list (`initial_sync.py:207`, `app/integrations/routes.py:195`, `225`, `327`, `341`) and a
  campaign's `id` (`initial_sync.py:121`). A missing key there raises KeyError, which is not
  modelled.
- A campaign's total (`IntegrationRoutes.CampaignPayload.totalSpending`) is a number or missing. A
  null total makes `total_spending > 0` raise TypeError (`initial_sync.py:358`), which is not
  modelled.
- In the initial sync, an exception is caught by the pull it happens in (`initial_sync.py:100-101`,
  `143-144`), which stops there; `main` then runs the other pull and commits what the session
  holds. The model covers only a failed flush, and it ends the whole run with nothing committed.
  An exception that ends one pull while `main` commits the work done before it (the KeyError and
  TypeError of the two lines above among them) is not modelled.
- SyncAdvertiserNames.SyncNames: the rename is not stated to be idempotent. A name already in
  "Brand (Company)" form can match a different company on a second invocation.
- `verify_api_key` and `API_KEYS` (`app/integrations/routes.py:12`, `32-37`): only the pull
  endpoints use them.

## Findings

| source | as written | input that shows it | evidently intended | confidence | as-written member | corrected member |
|---|---|---|---|---|---|---|
| app/integrations/routes.py:131-132 | A new advertiser is only `session.add`ed, so its `id` is still None when the note is built. The note is stored with a NULL `advertiser_id`, the commit fails on the NOT NULL column, and the handler answers 500. The same happens at lines 158-159 for brands. | A `company.created` event with `{"name": "Acme"}` on a store without an advertiser named "Acme". | Flush before building the note, as `initial_sync.py:157-158` does, so that the new advertiser and its note are stored. | high; not executed | IntegrationRoutes.CompanySyncedAsWritten | IntegrationRoutes.CompanySyncUpserts |
| sync_advertiser_names_with_agency.py:100-103 | `Advertiser(name=..., status='active')` passes a keyword the model has no column for. The constructor raises TypeError, the script returns False, and no rename is committed whenever a brand is missing. | An empty advertiser table, and a brands response `[{"name": "B", "company_name": "C"}]`. | Create the advertiser with its name only (default lead status), so that "B (C)" is added and the renames are committed. | high; not executed | SyncAdvertiserNames.AsWrittenCounterexample | SyncAdvertiserNames.SyncCoversBrands |
| cleanup_duplicate_advertisers.py:77-84 | Each activity of a duplicate gets `advertiser_id = primary.id` in the session, then `db.session.delete(duplicate)` runs. The delete cascade of the dynamic `Advertiser.activities` relationship (`app/models.py:44`) is gathered at once and reads the duplicate's activities from the database without flushing, so the activities just repointed are found there and deleted at the commit. The printed "Activities updated" counts activities that are gone. | Advertisers "Acme UAB" (id 1) and "Acme" (id 2), and one activity of advertiser 2. | Flush the repointing before deleting the duplicate, so that the activity is kept under advertiser 1. | medium; not executed | CleanupDuplicates.AsWrittenLosesActivities | CleanupDuplicates.CleanupRepointsActivity |
