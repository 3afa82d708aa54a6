/**
 * The inbound webhook endpoints (app/integrations/routes.py): the signature
 * gate, event dispatch, and the handlers that upsert advertisers, contacts,
 * notes and spending rows from agency-CRM and TV-planner payloads.
 *
 * Each handler is specified by a function from the store before to an
 * `Outcome` (the committed store, or an exception with the store rolled
 * back); the methods on `Store` at the end carry out the same steps in
 * place and are proved to reach that outcome.
 */
module IntegrationRoutes {

  import opened Common
  import opened Text
  import opened Models
  import opened Resolver

  const OurAgency: string := "Our Agency"

  // ---------------------------------------------------------------------
  // Company and brand upserts
  // ---------------------------------------------------------------------

  /** A company payload: its `name` key and the text of its `id`. */
  datatype CompanyPayload = CompanyPayload(name: Field, idText: string)

  function CompanyNote(advertiserId: nat, idText: string): Activity
  {
    Note(advertiserId, SystemUser, "Company synced from Agency CRM (ID: " + idText + ")", None)
  }

  /**
   * `sync_company_to_advertiser` as written: the note for a newly added
   * advertiser is built before the advertiser has an id, so its
   * `advertiser_id` is NULL and the commit fails.
   */
  function CompanySyncedAsWritten(db: DB, p: CompanyPayload): (r: Outcome)
    ensures p.name.Str? && NameFree(db.advertisers, p.name.s) ==> r.Raised?
  {
    match p.name
    case Str(n) =>
      (match ByName(db.advertisers, n)
       case None => Raised("NOT NULL constraint failed: activity.advertiser_id")
       case Some(k) =>
         var a := db.advertisers[k];
         Ok(db.(advertisers := db.advertisers[k := a.(leadStatus := Ours)],
                activities := db.activities + [CompanyNote(a.id, p.idText)])))
    case _ => Raised("company name missing or null")
  }

  /** The intended `sync_company_to_advertiser`: the new advertiser gets its id before the note is written. */
  function CompanySynced(db: DB, p: CompanyPayload): (r: Outcome)
    ensures r.Ok? <==> p.name.Str?
    ensures r.Ok? ==> r.db.contacts == db.contacts && r.db.spending == db.spending
    ensures r.Ok? ==> |r.db.activities| == |db.activities| + 1 && r.db.activities[..|db.activities|] == db.activities
  {
    match p.name
    case Str(n) =>
      (match ByName(db.advertisers, n)
       case None => Ok(CompanyAdded(db, n, p.idText))
       case Some(k) => Ok(CompanyMarked(db, k, p.idText)))
    case _ => Raised("company name missing or null")
  }

  /** A company whose name is free: a new `ours` advertiser under the next id, and the note on it. */
  function CompanyAdded(db: DB, n: string, idText: string): (r: DB)
    ensures db.Valid() && NameFree(db.advertisers, n) ==> r.Valid()
  {
    db.WithAdvertiser(n, Some(OurAgency), Ours).WithActivity(CompanyNote(db.nextAdvertiserId, idText))
  }

  /** A company already stored at `k`: it is marked `ours` and gets the note. */
  function CompanyMarked(db: DB, k: nat, idText: string): (r: DB)
    requires k < |db.advertisers|
    ensures db.Valid() ==> r.Valid()
  {
    var a := db.advertisers[k];
    IdsUpdate(db.advertisers, k, a.(leadStatus := Ours));
    IdAt(db.advertisers, k);
    db.(advertisers := db.advertisers[k := a.(leadStatus := Ours)]).WithActivity(CompanyNote(a.id, idText))
  }

  /**
   * After a company sync there is exactly one advertiser with the company's
   * name, it has status `ours`, the new note is attached to it, and an
   * advertiser is added only when the name was free.
   */
  lemma CompanySyncUpserts(db: DB, p: CompanyPayload)
    requires db.Valid() && p.name.Str?
    ensures CompanySynced(db, p).Ok?
    ensures
      var r := CompanySynced(db, p).db;
      && r.Valid()
      && ByName(r.advertisers, p.name.s).Some?
      && r.advertisers[ByName(r.advertisers, p.name.s).value].leadStatus == Ours
      && r.activities[|r.activities| - 1].advertiserId == r.advertisers[ByName(r.advertisers, p.name.s).value].id
      && |r.advertisers| == |db.advertisers| + (if NameFree(db.advertisers, p.name.s) then 1 else 0)
  {
    var n := p.name.s;
    var r := CompanySynced(db, p).db;
    match ByName(db.advertisers, n)
    case None =>
      var a := Advertiser(db.nextAdvertiserId, n, Some(OurAgency), Ours);
      assert r.advertisers == db.advertisers + [a];
      IdAt(r.advertisers, |db.advertisers|);
      ByNameOfStoredName(r.advertisers, |db.advertisers|);
    case Some(k) =>
      var a := db.advertisers[k].(leadStatus := Ours);
      IdsUpdate(db.advertisers, k, a);
      IdAt(db.advertisers, k);
      assert r.advertisers == db.advertisers[k := a];
      assert NamesUnique(r.advertisers);
      ByNameOfStoredName(r.advertisers, k);
  }

  /** Syncing the same company twice adds the advertiser at most once. */
  lemma CompanySyncTwice(db: DB, p: CompanyPayload)
    requires db.Valid() && p.name.Str?
    ensures CompanySynced(db, p).Ok?
    ensures CompanySynced(CompanySynced(db, p).db, p).Ok?
    ensures |CompanySynced(CompanySynced(db, p).db, p).db.advertisers| == |CompanySynced(db, p).db.advertisers|
  {
    CompanySyncUpserts(db, p);
    var r := CompanySynced(db, p).db;
    CompanySyncUpserts(r, p);
    assert !NameFree(r.advertisers, p.name.s);
  }

  /** A brand payload: `name`, `company_name` and the text of its `id`. */
  datatype BrandPayload = BrandPayload(name: Field, companyName: Field, idText: string)

  /** `f"{brand_data.get('company_name', 'Unknown')} - {brand_data['name']}"`: a missing company key reads as 'Unknown', a null one prints as "None"; None when `name` is missing. */
  function BrandAdvertiserName(p: BrandPayload): (r: Option<string>)
    ensures r.Some? <==> !p.name.Absent?
    ensures r.Some? ==> r.value == Render(p.companyName.GetOr(Some("Unknown"))) + " - " + Render(p.name.GetOr(None))
  {
    if p.name.Absent? then None
    else Some(Render(p.companyName.GetOr(Some("Unknown"))) + " - " + Render(p.name.GetOr(None)))
  }

  function BrandNote(advertiserId: nat, idText: string): Activity
  {
    Note(advertiserId, SystemUser, "Brand synced from Agency CRM (Brand ID: " + idText + ")", None)
  }

  /** `sync_brand_to_advertiser` as written: a new advertiser's note has a NULL `advertiser_id`. */
  function BrandSyncedAsWritten(db: DB, p: BrandPayload): (r: Outcome)
    ensures BrandAdvertiserName(p).Some? && NameFree(db.advertisers, BrandAdvertiserName(p).value) ==> r.Raised?
  {
    match BrandAdvertiserName(p)
    case None => Raised("KeyError: 'name'")
    case Some(n) =>
      match ByName(db.advertisers, n)
      case None => Raised("NOT NULL constraint failed: activity.advertiser_id")
      case Some(k) => Ok(db.(activities := db.activities + [BrandNote(db.advertisers[k].id, p.idText)]))
  }

  /** The intended `sync_brand_to_advertiser`: an existing advertiser is never modified; a new one is `ours`. */
  function BrandSynced(db: DB, p: BrandPayload): (r: Outcome)
    ensures r.Ok? <==> !p.name.Absent?
    ensures r.Ok? && !NameFree(db.advertisers, BrandAdvertiserName(p).value) ==> r.db.advertisers == db.advertisers
    ensures r.Ok? ==> r.db.contacts == db.contacts && r.db.spending == db.spending
    ensures r.Ok? ==> |r.db.activities| == |db.activities| + 1 && r.db.activities[..|db.activities|] == db.activities
  {
    match BrandAdvertiserName(p)
    case None => Raised("KeyError: 'name'")
    case Some(n) =>
      match ByName(db.advertisers, n)
      case None => Ok(db.WithAdvertiser(n, Some(OurAgency), Ours).WithActivity(BrandNote(db.nextAdvertiserId, p.idText)))
      case Some(k) => Ok(db.WithActivity(BrandNote(db.advertisers[k].id, p.idText)))
  }

  /** A brand sync keeps the store's constraints and leaves exactly one advertiser under the brand's name. */
  lemma BrandSyncUpserts(db: DB, p: BrandPayload)
    requires db.Valid() && !p.name.Absent?
    ensures BrandSynced(db, p).Ok?
    ensures
      var r := BrandSynced(db, p).db;
      var n := BrandAdvertiserName(p).value;
      && r.Valid()
      && ByName(r.advertisers, n).Some?
      && r.activities[|r.activities| - 1].advertiserId == r.advertisers[ByName(r.advertisers, n).value].id
  {
    var n := BrandAdvertiserName(p).value;
    var r := BrandSynced(db, p).db;
    match ByName(db.advertisers, n)
    case None =>
      IdAt(r.advertisers, |db.advertisers|);
      ByNameOfStoredName(r.advertisers, |db.advertisers|);
    case Some(k) =>
      IdAt(db.advertisers, k);
      ByNameOfStoredName(db.advertisers, k);
  }

  // ---------------------------------------------------------------------
  // Contacts
  // ---------------------------------------------------------------------

  /**
   * A contact payload. `id` is `payload.get('id')` (a missing key and null
   * both read as None); `brands` holds the brand names, None when the key
   * holds null (a missing key reads as the empty list).
   */
  datatype ContactPayload = ContactPayload(
    id: Option<int>,
    firstName: Field,
    lastName: Field,
    email: Field,
    phone: Field,
    linkedinUrl: Field,
    brands: Option<seq<string>>)

  /** `contact_data.get('brands', [])` where only its truthiness and its elements matter. */
  function BrandList(p: ContactPayload): seq<string>
  {
    if p.brands.Some? then p.brands.value else []
  }

  /** The primary advertiser's id: the resolution of the first brand, or None with no brands. */
  function PrimaryId(advs: seq<Advertiser>, brands: seq<string>): (r: Option<nat>)
    ensures brands == [] ==> r.None?
    ensures brands != [] ==> r == ResolveId(advs, Some(brands[0]))
  {
    if brands == [] then None else ResolveId(advs, Some(brands[0]))
  }

  /** The note tying a contact to a non-primary advertiser; its description is the relationship marker. */
  function RelationshipNote(advertiserId: nat, c: Contact): Activity
  {
    Note(advertiserId, SystemUser, RelationshipMarker(c.firstName, c.lastName),
         Some("Contact: " + Render(c.email) + " | Phone: " + OrElse(c.phone, "N/A")))
  }

  const SyncNotePrefix: string := "Contact synced from Agency CRM: "

  /** The note on the primary advertiser when a contact is created. */
  function SyncNote(advertiserId: nat, c: Contact): Activity
  {
    Note(advertiserId, SystemUser, SyncNotePrefix + c.firstName + " " + c.lastName,
         Some("New contact added from Agency CRM sync"))
  }

  /** The brands of `brands` that resolve to an advertiser other than `primary`. */
  predicate Secondary(advs: seq<Advertiser>, brand: string, primary: Option<nat>)
  {
    ResolveId(advs, Some(brand)).Some? && (primary.None? || ResolveId(advs, Some(brand)).value != primary.value)
  }

  /** One relationship note per brand resolving to an advertiser other than the primary, in brand order. */
  function RelationshipNotes(advs: seq<Advertiser>, brands: seq<string>, primary: Option<nat>, c: Contact): (notes: seq<Activity>)
    ensures |notes| <= |brands|
    ensures forall i :: 0 <= i < |notes| ==>
              notes[i].description == RelationshipMarker(c.firstName, c.lastName)
              && notes[i].advertiserId in Ids(advs)
              && Some(notes[i].advertiserId) != primary
    decreases |brands|
  {
    if brands == [] then []
    else
      var b := brands[|brands| - 1];
      RelationshipNotes(advs, brands[..|brands| - 1], primary, c)
      + (if Secondary(advs, b, primary)
         then (ResolvedIdStored(advs, Some(b)); [RelationshipNote(ResolveId(advs, Some(b)).value, c)])
         else [])
  }

  /** The number of brands that resolve to an advertiser other than the primary. */
  function SecondaryCount(advs: seq<Advertiser>, brands: seq<string>, primary: Option<nat>): nat
    decreases |brands|
  {
    if brands == [] then 0
    else SecondaryCount(advs, brands[..|brands| - 1], primary) + (if Secondary(advs, brands[|brands| - 1], primary) then 1 else 0)
  }

  /** Exactly one relationship note per secondary brand. */
  lemma {:induction false} RelationshipNotesCount(advs: seq<Advertiser>, brands: seq<string>, primary: Option<nat>, c: Contact)
    ensures |RelationshipNotes(advs, brands, primary, c)| == SecondaryCount(advs, brands, primary)
    decreases |brands|
  {
    if brands != [] {
      RelationshipNotesCount(advs, brands[..|brands| - 1], primary, c);
    }
  }

  /**
   * The notes written when a contact is created: for each resolved brand,
   * a relationship note when it is not the primary (or there is no
   * primary), and the sync note when it is.
   */
  function CreationNotes(advs: seq<Advertiser>, brands: seq<string>, primary: Option<nat>, c: Contact): (notes: seq<Activity>)
    ensures forall i :: 0 <= i < |notes| ==> notes[i].advertiserId in Ids(advs)
    decreases |brands|
  {
    if brands == [] then []
    else
      var b := brands[|brands| - 1];
      var id := ResolveId(advs, Some(b));
      CreationNotes(advs, brands[..|brands| - 1], primary, c)
      + (if id.None? then []
         else (ResolvedIdStored(advs, Some(b));
               if primary.None? || id.value != primary.value then [RelationshipNote(id.value, c)]
               else [SyncNote(id.value, c)]))
  }

  /** The sync note never carries the relationship marker: its prefix is shorter. */
  lemma SyncNoteUnmarked(advertiserId: nat, c: Contact)
    ensures !HasMarker(SyncNote(advertiserId, c), RelationshipMarker(c.firstName, c.lastName))
  {
    if HasMarker(SyncNote(advertiserId, c), RelationshipMarker(c.firstName, c.lastName)) {
      ContainsLength(SyncNote(advertiserId, c).description, RelationshipMarker(c.firstName, c.lastName));
    }
  }

  /** The note a creation writes for the last brand of `brands`. */
  function LastCreationNote(advs: seq<Advertiser>, brands: seq<string>, primary: Option<nat>, c: Contact): seq<Activity>
    requires brands != []
  {
    var id := ResolveId(advs, Some(brands[|brands| - 1]));
    if id.None? then []
    else if primary.None? || id.value != primary.value then [RelationshipNote(id.value, c)]
    else [SyncNote(id.value, c)]
  }

  lemma CreationNotesStep(advs: seq<Advertiser>, brands: seq<string>, primary: Option<nat>, c: Contact)
    requires brands != []
    ensures CreationNotes(advs, brands, primary, c)
         == CreationNotes(advs, brands[..|brands| - 1], primary, c) + LastCreationNote(advs, brands, primary, c)
  {
  }

  /**
   * The relationship notes written on creation are exactly those an update
   * with the same brands would write.
   */
  lemma {:induction false} CreationMarkerNotes(advs: seq<Advertiser>, brands: seq<string>, primary: Option<nat>, c: Contact)
    ensures WithMarker(CreationNotes(advs, brands, primary, c), RelationshipMarker(c.firstName, c.lastName))
         == RelationshipNotes(advs, brands, primary, c)
    decreases |brands|
  {
    var m := RelationshipMarker(c.firstName, c.lastName);
    if brands != [] {
      var init := brands[..|brands| - 1];
      var tail := LastCreationNote(advs, brands, primary, c);
      CreationMarkerNotes(advs, init, primary, c);
      CreationNotesStep(advs, brands, primary, c);
      WithMarkerConcat(CreationNotes(advs, init, primary, c), tail, m);
      var id := ResolveId(advs, Some(brands[|brands| - 1]));
      if id.Some? {
        if primary.None? || id.value != primary.value {
          ContainsItself(m);
          AllMarked(tail, m);
        } else {
          SyncNoteUnmarked(id.value, c);
          NoneMarked(tail, m);
        }
      }
    }
  }

  /** Every creation note carries the marker or is the sync note on the primary advertiser. */
  lemma {:induction false} CreationNotesShape(advs: seq<Advertiser>, brands: seq<string>, primary: Option<nat>, c: Contact)
    ensures forall n :: n in CreationNotes(advs, brands, primary, c) ==>
              HasMarker(n, RelationshipMarker(c.firstName, c.lastName))
              || (primary.Some? && n == SyncNote(primary.value, c))
    decreases |brands|
  {
    if brands != [] {
      CreationNotesShape(advs, brands[..|brands| - 1], primary, c);
      CreationNotesStep(advs, brands, primary, c);
      ContainsItself(RelationshipMarker(c.firstName, c.lastName));
    }
  }

  /** `sync_contact`: create a contact from the agency CRM, or hand over to the update when its CRM id is known. */
  function ContactSynced(db: DB, p: ContactPayload): (r: Outcome)
    ensures !p.email.Truthy() ==> r == Ok(db)
    ensures p.email.Truthy() && IntTruthy(p.id) && ContactByCrmId(db.contacts, p.id).Some? ==> r == ContactUpdated(db, p)
  {
    if !p.email.Truthy() then Ok(db)
    else if IntTruthy(p.id) && ContactByCrmId(db.contacts, p.id).Some? then ContactUpdated(db, p)
    else ContactCreation(db, p)
  }

  /** The creation path of `sync_contact`: the contact with its first brand as primary advertiser, and its notes. */
  function ContactCreation(db: DB, p: ContactPayload): (r: Outcome)
    requires p.email.Str?
    ensures r.Ok? <==> !p.firstName.Null? && !p.lastName.Null? && p.brands.Some?
  {
    var first := p.firstName.GetOr(Some(""));
    var last := p.lastName.GetOr(Some(""));
    if first.None? || last.None? then Raised("NOT NULL constraint failed: contact.first_name/last_name")
    else if p.brands.None? then Raised("TypeError: 'NoneType' object is not iterable")
    else
      var brands := p.brands.value;
      var primary := PrimaryId(db.advertisers, brands);
      var c := Contact(primary, p.id, first.value, last.value, Some(p.email.s),
                       p.phone.GetOr(None), p.linkedinUrl.GetOr(None), SystemUser);
      Ok(ContactCreated(db, brands, c))
  }

  /** The contact `c` appended, with the notes its creation writes for `brands`. */
  function ContactCreated(db: DB, brands: seq<string>, c: Contact): (r: DB)
    ensures db.Valid() && (c.advertiserId.Some? ==> c.advertiserId.value in Ids(db.advertisers)) ==> r.Valid()
  {
    db.(contacts := db.contacts + [c],
        activities := db.activities + CreationNotes(db.advertisers, brands, c.advertiserId, c))
  }

  /** Whether `ContactSynced` takes the creation path. */
  predicate Creates(db: DB, p: ContactPayload)
  {
    && p.email.Truthy()
    && !(IntTruthy(p.id) && ContactByCrmId(db.contacts, p.id).Some?)
    && !p.firstName.Null? && !p.lastName.Null? && p.brands.Some?
  }

  /**
   * On the creation path exactly one contact is appended. Its primary
   * advertiser is the first brand's resolution, it stores the payload id as
   * its CRM id, and the store's constraints still hold.
   */
  lemma ContactSyncCreates(db: DB, p: ContactPayload)
    requires db.Valid() && Creates(db, p)
    ensures ContactSynced(db, p).Ok?
    ensures
      var r := ContactSynced(db, p).db;
      && r.Valid()
      && r.advertisers == db.advertisers && r.spending == db.spending
      && |r.contacts| == |db.contacts| + 1 && r.contacts[..|db.contacts|] == db.contacts
      && r.contacts[|db.contacts|].advertiserId == PrimaryId(db.advertisers, p.brands.value)
      && r.contacts[|db.contacts|].agencyCrmId == p.id
      && r.contacts[|db.contacts|].email == Some(p.email.s)
  {
    var brands := p.brands.value;
    var primary := PrimaryId(db.advertisers, brands);
    if primary.Some? {
      ResolvedIdStored(db.advertisers, Some(brands[0]));
    }
    var r := ContactSynced(db, p).db;
    assert r.contacts[..|db.contacts|] == db.contacts;
  }

  /** A contact payload with no (or an empty) email creates no contact and no note. */
  lemma NoEmailNoChange(db: DB, p: ContactPayload)
    requires !p.email.Truthy()
    ensures ContactSynced(db, p) == Ok(db)
  {
  }

  /** Creating a contact and receiving the same creation again does not duplicate it: the second goes to the update. */
  lemma ContactSyncTwiceNoDuplicate(db: DB, p: ContactPayload)
    requires db.Valid() && Creates(db, p) && IntTruthy(p.id)
    ensures ContactSynced(db, p).Ok?
    ensures var r := ContactSynced(db, p).db;
      ContactSynced(r, p) == ContactUpdated(r, p)
  {
    ContactSyncCreates(db, p);
    var r := ContactSynced(db, p).db;
    assert r.contacts[|db.contacts|].agencyCrmId == p.id;
    assert ContactByCrmId(r.contacts, p.id).Some?;
  }

  // The update's target, in precedence order.

  predicate MatchesId(c: Contact, id: Option<int>)
  {
    IntTruthy(id) && c.agencyCrmId == id
  }

  predicate MatchesEmail(c: Contact, email: Option<string>)
  {
    StrTruthy(email) && c.email == email
  }

  predicate MatchesName(c: Contact, first: Option<string>, last: Option<string>)
  {
    StrTruthy(first) && StrTruthy(last) && c.firstName == first.value && c.lastName == last.value
  }

  /** The contact an update applies to, and whether its CRM id is overwritten with the payload's. */
  datatype Target = Target(index: nat, backfill: bool)

  /**
   * The contact `update_contact` picks: the first with the payload's CRM
   * id; else the first with its email (backfilling the id); else the first
   * with its first and last name (backfilling the id).
   */
  function FindTarget(contacts: seq<Contact>, id: Option<int>, email: Option<string>, first: Option<string>, last: Option<string>): (r: Option<Target>)
    ensures r.Some? ==> r.value.index < |contacts|
    ensures r.None? <==> forall k :: 0 <= k < |contacts| ==>
              !MatchesId(contacts[k], id) && !MatchesEmail(contacts[k], email) && !MatchesName(contacts[k], first, last)
    ensures r.Some? && !r.value.backfill ==>
              MatchesId(contacts[r.value.index], id)
              && forall k :: 0 <= k < r.value.index ==> !MatchesId(contacts[k], id)
    ensures r.Some? && r.value.backfill ==>
              (forall k :: 0 <= k < |contacts| ==> !MatchesId(contacts[k], id))
              && ((MatchesEmail(contacts[r.value.index], email)
                   && forall k :: 0 <= k < r.value.index ==> !MatchesEmail(contacts[k], email))
                  || ((forall k :: 0 <= k < |contacts| ==> !MatchesEmail(contacts[k], email))
                      && MatchesName(contacts[r.value.index], first, last)
                      && forall k :: 0 <= k < r.value.index ==> !MatchesName(contacts[k], first, last)))
  {
    var byId := if IntTruthy(id) then ContactByCrmId(contacts, id) else None;
    if byId.Some? then Some(Target(byId.value, false))
    else
      var byEmail := if StrTruthy(email) then ContactByEmail(contacts, email) else None;
      if byEmail.Some? then Some(Target(byEmail.value, true))
      else if StrTruthy(first) && StrTruthy(last) then
        match ContactByName(contacts, first.value, last.value)
        case None => None
        case Some(k) => Some(Target(k, true))
      else None
  }

  /** The payload fields the update reads for the lookup. */
  function LookupTarget(contacts: seq<Contact>, p: ContactPayload): Option<Target>
  {
    FindTarget(contacts, p.id, p.email.GetOr(None), p.firstName.GetOr(Some("")), p.lastName.GetOr(Some("")))
  }

  /** The target's fields after the merge: a present key wins, a missing key keeps the stored value. */
  function Merged(stored: Contact, t: Target, p: ContactPayload): (c: Option<Contact>)
    ensures c.None? <==> p.firstName.Null? || p.lastName.Null?
    ensures c.Some? ==>
              && c.value.firstName == p.firstName.GetOr(Some(stored.firstName)).value
              && c.value.lastName == p.lastName.GetOr(Some(stored.lastName)).value
              && c.value.email == p.email.GetOr(stored.email)
              && c.value.phone == p.phone.GetOr(stored.phone)
              && c.value.linkedinUrl == p.linkedinUrl.GetOr(stored.linkedinUrl)
              && c.value.agencyCrmId == (if t.backfill then p.id else stored.agencyCrmId)
              && c.value.advertiserId == stored.advertiserId && c.value.addedById == stored.addedById
  {
    var first := p.firstName.GetOr(Some(stored.firstName));
    var last := p.lastName.GetOr(Some(stored.lastName));
    if first.None? || last.None? then None
    else
      Some(stored.(agencyCrmId := if t.backfill then p.id else stored.agencyCrmId,
                firstName := first.value,
                lastName := last.value,
                email := p.email.GetOr(stored.email),
                phone := p.phone.GetOr(stored.phone),
                linkedinUrl := p.linkedinUrl.GetOr(stored.linkedinUrl)))
  }

  /**
   * `update_contact`: merge the payload into the target, delete every note
   * carrying the (new) name's relationship marker, set the primary from the
   * first brand, and write one relationship note per other resolved brand.
   */
  function ContactUpdated(db: DB, p: ContactPayload): (r: Outcome)
    ensures LookupTarget(db.contacts, p).None? ==> r == Ok(db)
    ensures LookupTarget(db.contacts, p).Some? ==> (r.Raised? <==> p.firstName.Null? || p.lastName.Null?)
    ensures r.Ok? ==> r.db.advertisers == db.advertisers && r.db.spending == db.spending && |r.db.contacts| == |db.contacts|
  {
    match LookupTarget(db.contacts, p)
    case None => Ok(db)
    case Some(t) =>
      match Merged(db.contacts[t.index], t, p)
      case None => Raised("NOT NULL constraint failed: contact.first_name/last_name")
      case Some(merged) =>
        var brands := BrandList(p);
        var primary := PrimaryId(db.advertisers, brands);
        var c := merged.(advertiserId := primary);
        var kept := WithoutMarker(db.activities, RelationshipMarker(c.firstName, c.lastName));
        Ok(db.(contacts := db.contacts[t.index := c],
               activities := kept + RelationshipNotes(db.advertisers, brands, primary, c)))
  }

  /**
   * After an update the target's primary is the first brand's resolution,
   * and the only notes carrying its relationship marker are the ones just
   * written, one per brand resolving to another advertiser.
   */
  lemma ContactUpdateRelationships(db: DB, p: ContactPayload)
    requires LookupTarget(db.contacts, p).Some? && ContactUpdated(db, p).Ok?
    ensures
      var t := LookupTarget(db.contacts, p).value;
      var r := ContactUpdated(db, p).db;
      var c := r.contacts[t.index];
      var m := RelationshipMarker(c.firstName, c.lastName);
      && c.advertiserId == PrimaryId(db.advertisers, BrandList(p))
      && WithMarker(r.activities, m) == RelationshipNotes(db.advertisers, BrandList(p), c.advertiserId, c)
      && |WithMarker(r.activities, m)| == SecondaryCount(db.advertisers, BrandList(p), c.advertiserId)
  {
    var t := LookupTarget(db.contacts, p).value;
    var r := ContactUpdated(db, p).db;
    var c := r.contacts[t.index];
    var m := RelationshipMarker(c.firstName, c.lastName);
    var notes := RelationshipNotes(db.advertisers, BrandList(p), c.advertiserId, c);
    WithMarkerConcat(WithoutMarker(db.activities, m), notes, m);
    WithoutMarkerIdempotent(db.activities, m);
    ContainsItself(m);
    AllMarked(notes, m);
    RelationshipNotesCount(db.advertisers, BrandList(p), c.advertiserId, c);
  }

  /** An update keeps the store's constraints. */
  lemma ContactUpdateValid(db: DB, p: ContactPayload)
    requires db.Valid() && ContactUpdated(db, p).Ok?
    ensures ContactUpdated(db, p).db.Valid()
  {
    match LookupTarget(db.contacts, p)
    case None =>
    case Some(t) =>
      var brands := BrandList(p);
      var primary := PrimaryId(db.advertisers, brands);
      if primary.Some? {
        ResolvedIdStored(db.advertisers, Some(brands[0]));
      }
      var r := ContactUpdated(db, p).db;
      var m := RelationshipMarker(r.contacts[t.index].firstName, r.contacts[t.index].lastName);
      var kept := WithoutMarker(db.activities, m);
      forall k | 0 <= k < |kept| ensures kept[k].advertiserId in Ids(db.advertisers) {
        assert kept[k] in db.activities;
      }
  }

  /**
   * Replacing the target by a contact that still carries what the lookup
   * matched it by (and, after a backfill, the payload's id) leaves the
   * lookup on the same index.
   */
  lemma {:induction false} FindTargetStable(cs: seq<Contact>, id: Option<int>, email: Option<string>,
                                            first: Option<string>, last: Option<string>, c: Contact)
    requires FindTarget(cs, id, email, first, last).Some?
    requires var t := FindTarget(cs, id, email, first, last).value;
      && c.agencyCrmId == (if t.backfill then id else cs[t.index].agencyCrmId)
      && (StrTruthy(email) ==> c.email == email)
      && (MatchesName(cs[t.index], first, last) ==> c.firstName == first.value && c.lastName == last.value)
    ensures var t := FindTarget(cs, id, email, first, last).value;
      var t' := FindTarget(cs[t.index := c], id, email, first, last);
      t'.Some? && t'.value.index == t.index
  {
    var t := FindTarget(cs, id, email, first, last).value;
    var i := t.index;
    var cs' := cs[i := c];
    assert forall k :: 0 <= k < |cs| && k != i ==> cs'[k] == cs[k];
    if !t.backfill {
      assert MatchesId(cs'[i], id);
    } else if IntTruthy(id) {
      assert MatchesId(cs'[i], id);
    } else {
      FoundAgainWithoutId(cs, id, email, first, last, c);
    }
  }

  /** Without a usable CRM id, the backfilled target is found again by email or by name. */
  lemma FoundAgainWithoutId(cs: seq<Contact>, id: Option<int>, email: Option<string>,
                            first: Option<string>, last: Option<string>, c: Contact)
    requires !IntTruthy(id) && FindTarget(cs, id, email, first, last).Some?
    requires var t := FindTarget(cs, id, email, first, last).value;
      && t.backfill
      && (StrTruthy(email) ==> c.email == email)
      && (MatchesName(cs[t.index], first, last) ==> c.firstName == first.value && c.lastName == last.value)
    ensures var t := FindTarget(cs, id, email, first, last).value;
      var t' := FindTarget(cs[t.index := c], id, email, first, last);
      t'.Some? && t'.value.index == t.index
  {
    var i := FindTarget(cs, id, email, first, last).value.index;
    var cs' := cs[i := c];
    assert forall k :: 0 <= k < |cs| && k != i ==> cs'[k] == cs[k];
    if StrTruthy(email) {
      assert MatchesEmail(cs'[i], email);
    } else {
      assert MatchesName(cs'[i], first, last);
    }
  }

  /** The target found again after an update is the same contact. */
  lemma TargetStable(db: DB, p: ContactPayload)
    requires LookupTarget(db.contacts, p).Some? && ContactUpdated(db, p).Ok?
    ensures LookupTarget(ContactUpdated(db, p).db.contacts, p).Some?
    ensures LookupTarget(ContactUpdated(db, p).db.contacts, p).value.index == LookupTarget(db.contacts, p).value.index
  {
    var i := LookupTarget(db.contacts, p).value.index;
    var cs' := ContactUpdated(db, p).db.contacts;
    assert cs' == db.contacts[i := cs'[i]];
    FindTargetStable(db.contacts, p.id, p.email.GetOr(None), p.firstName.GetOr(Some("")), p.lastName.GetOr(Some("")), cs'[i]);
  }

  /**
   * Updating twice with the same payload is updating once: the same target,
   * the same fields, the same primary and the same relationship notes.
   */
  lemma ContactUpdateIdempotent(db: DB, p: ContactPayload)
    requires ContactUpdated(db, p).Ok?
    ensures ContactUpdated(ContactUpdated(db, p).db, p) == ContactUpdated(db, p)
  {
    if LookupTarget(db.contacts, p).Some? {
      TargetStable(db, p);
      var t := LookupTarget(db.contacts, p).value;
      var r := ContactUpdated(db, p).db;
      var t' := LookupTarget(r.contacts, p).value;
      var c := r.contacts[t.index];
      var m := RelationshipMarker(c.firstName, c.lastName);
      var notes := RelationshipNotes(db.advertisers, BrandList(p), c.advertiserId, c);
      MergeTwice(db.contacts[t.index], t, t', p, c.advertiserId);
      assert r.contacts[t.index := c] == r.contacts;
      ContainsItself(m);
      RefilterMarked(db.activities, notes, m);
    }
  }

  /** Merging a payload into a contact it was already merged into changes nothing (the CRM id included). */
  lemma MergeTwice(stored: Contact, t: Target, t': Target, p: ContactPayload, primary: Option<nat>)
    requires Merged(stored, t, p).Some?
    requires t.backfill || stored.agencyCrmId == p.id
    ensures Merged(Merged(stored, t, p).value.(advertiserId := primary), t', p)
         == Some(Merged(stored, t, p).value.(advertiserId := primary))
  {
  }

  /** Removing the marked notes again and re-adding the same marked notes gives the same sequence. */
  lemma RefilterMarked(acts: seq<Activity>, notes: seq<Activity>, m: string)
    requires forall k :: 0 <= k < |notes| ==> HasMarker(notes[k], m)
    ensures WithoutMarker(WithoutMarker(acts, m) + notes, m) + notes == WithoutMarker(acts, m) + notes
  {
    var w := WithoutMarker(acts, m);
    WithoutMarkerConcat(w, notes, m);
    WithoutMarkerIdempotent(acts, m);
    AllMarked(notes, m);
    assert WithoutMarker(w + notes, m) == w + [];
    assert w + [] == w;
  }

  // ---------------------------------------------------------------------
  // Invoice and status-update notes
  // ---------------------------------------------------------------------

  /** An invoice payload: `brand_name`, and the texts of `invoice_date` and `total_amount`. */
  datatype InvoicePayload = InvoicePayload(brandName: Field, invoiceDateText: string, totalAmountText: string)

  function InvoiceNote(advertiserId: nat, p: InvoicePayload): Activity
  {
    Note(advertiserId, SystemUser, "Invoice created: " + p.invoiceDateText + " - Amount: " + p.totalAmountText + " EUR",
         Some("Invoice logged"))
  }

  /** `create_invoice_activity`: one note on the advertiser the brand name resolves to, nothing otherwise. */
  function InvoiceLogged(db: DB, p: InvoicePayload): (r: DB)
    ensures ResolveId(db.advertisers, p.brandName.GetOr(Some(""))).None? ==> r == db
    ensures ResolveId(db.advertisers, p.brandName.GetOr(Some(""))).Some? ==>
              r == db.(activities := db.activities + [InvoiceNote(ResolveId(db.advertisers, p.brandName.GetOr(Some(""))).value, p)])
    ensures db.Valid() ==> r.Valid()
  {
    match ResolveId(db.advertisers, p.brandName.GetOr(Some("")))
    case None => db
    case Some(id) =>
      ResolvedIdStored(db.advertisers, p.brandName.GetOr(Some("")));
      db.(activities := db.activities + [InvoiceNote(id, p)])
  }

  /** A status-update payload: `brand_name`, `update_text` and `created_by`. */
  datatype StatusUpdatePayload = StatusUpdatePayload(brandName: Field, updateText: Field, createdBy: Field)

  function StatusNote(advertiserId: nat, p: StatusUpdatePayload): Activity
  {
    Note(advertiserId, SystemUser, "Status Update: " + Render(p.updateText.GetOr(Some(""))),
         Some("By: " + Render(p.createdBy.GetOr(Some("Unknown")))))
  }

  /** `create_status_update_activity`: one note on the resolved advertiser, nothing otherwise. */
  function StatusUpdateLogged(db: DB, p: StatusUpdatePayload): (r: DB)
    ensures ResolveId(db.advertisers, p.brandName.GetOr(Some(""))).None? ==> r == db
    ensures ResolveId(db.advertisers, p.brandName.GetOr(Some(""))).Some? ==>
              r == db.(activities := db.activities + [StatusNote(ResolveId(db.advertisers, p.brandName.GetOr(Some(""))).value, p)])
    ensures db.Valid() ==> r.Valid()
  {
    match ResolveId(db.advertisers, p.brandName.GetOr(Some("")))
    case None => db
    case Some(id) =>
      ResolvedIdStored(db.advertisers, p.brandName.GetOr(Some("")));
      db.(activities := db.activities + [StatusNote(id, p)])
  }

  /** A payload without `brand_name` lands on the first advertiser of a non-empty store. */
  lemma MissingBrandNameHitsFirst(db: DB, p: InvoicePayload)
    requires p.brandName.Absent? && db.advertisers != []
    ensures InvoiceLogged(db, p).activities == db.activities + [InvoiceNote(db.advertisers[0].id, p)]
  {
    EmptyCandidateResolvesFirst(db.advertisers);
  }

  // ---------------------------------------------------------------------
  // TV-planner campaigns and waves
  // ---------------------------------------------------------------------

  /** The advertiser key of a campaign name: the text before the first '-', stripped. */
  function NameKey(name: string): (key: string)
    ensures '-' !in key
  {
    Strip(BeforeFirst(name, '-'))
  }

  /** A campaign payload: `name`, and `total_spending` (None when the key is missing). */
  datatype CampaignPayload = CampaignPayload(name: Field, totalSpending: Option<Amount>)

  /** `campaign_data.get('total_spending', 0)` */
  function TotalSpending(p: CampaignPayload): Amount
  {
    if p.totalSpending.Some? then p.totalSpending.value else Amount(0.0, "0")
  }

  /** The position of the spending row of (advertiser, year), if there is one. */
  function SpendingRow(rows: seq<SpendingData>, advertiserId: nat, year: int): (r: Option<nat>)
    ensures r.Some? ==> r.value < |rows| && rows[r.value].advertiserId == advertiserId && rows[r.value].year == year
    ensures r.None? <==> forall k :: 0 <= k < |rows| ==> rows[k].advertiserId != advertiserId || rows[k].year != year
  {
    First(rows, (s: SpendingData) => s.advertiserId == advertiserId && s.year == year)
  }

  /** Get or create the (advertiser, year) row and set its `tv` figure. */
  function SetTv(rows: seq<SpendingData>, advertiserId: nat, year: int, tv: real): (r: seq<SpendingData>)
    ensures SpendingRow(r, advertiserId, year).Some?
    ensures r[SpendingRow(r, advertiserId, year).value].tv == tv
    ensures forall k :: 0 <= k < |rows| && (rows[k].advertiserId != advertiserId || rows[k].year != year) ==> rows[k] in r
    ensures forall s :: s in r ==> s in rows || (s.advertiserId == advertiserId && s.year == year)
    ensures SpendingUnique(rows) ==> SpendingUnique(r)
  {
    match SpendingRow(rows, advertiserId, year)
    case None =>
      var r := rows + [EmptySpending(advertiserId, year).(tv := tv)];
      FirstIsUnique(r, (s: SpendingData) => s.advertiserId == advertiserId && s.year == year, |rows|);
      r
    case Some(k) =>
      var r := rows[k := rows[k].(tv := tv)];
      FirstIsUnique(r, (s: SpendingData) => s.advertiserId == advertiserId && s.year == year, k);
      assert forall j :: 0 <= j < |rows| && j != k ==> r[j] == rows[j];
      r
  }

  /** `sync_campaign_spending`, with the current year as a parameter. */
  function CampaignSynced(db: DB, p: CampaignPayload, year: int): (r: Outcome)
    ensures p.name.Null? <==> r.Raised?
    ensures r.Ok? && (p.name.Absent? || NameKey(p.name.s) == "") ==> r.db == db
    ensures r.Ok? ==> r.db.advertisers == db.advertisers && r.db.contacts == db.contacts
  {
    match p.name
    case Null => Raised("AttributeError: 'NoneType' object has no attribute 'split'")
    case Absent => Ok(db)
    case Str(n) =>
      var key := NameKey(n);
      if key == "" then Ok(db)
      else
        match ResolveId(db.advertisers, Some(key))
        case None => Ok(db)
        case Some(id) =>
          var total := TotalSpending(p);
          Ok(db.(spending := SetTv(db.spending, id, year, total.value),
                 activities := db.activities + [Note(id, SystemUser, "TV Campaign synced: " + n,
                                                     Some("Spending: " + total.text + " EUR"))]))
  }

  /**
   * When a campaign resolves, the current-year row of its advertiser ends
   * with `tv` equal to the payload's total, whatever it held before; other
   * rows are kept, and the store's constraints still hold.
   */
  lemma CampaignOverwritesTv(db: DB, p: CampaignPayload, year: int)
    requires db.Valid() && p.name.Str? && NameKey(p.name.s) != ""
    requires ResolveId(db.advertisers, Some(NameKey(p.name.s))).Some?
    ensures CampaignSynced(db, p, year).Ok?
    ensures
      var r := CampaignSynced(db, p, year).db;
      var id := ResolveId(db.advertisers, Some(NameKey(p.name.s))).value;
      && r.Valid()
      && SpendingRow(r.spending, id, year).Some?
      && r.spending[SpendingRow(r.spending, id, year).value].tv == TotalSpending(p).value
  {
    var id := ResolveId(db.advertisers, Some(NameKey(p.name.s))).value;
    ResolvedIdStored(db.advertisers, Some(NameKey(p.name.s)));
    var n := p.name.s;
    var total := TotalSpending(p);
    assert CampaignSynced(db, p, year).db == db.(spending := SetTv(db.spending, id, year, total.value),
      activities := db.activities + [Note(id, SystemUser, "TV Campaign synced: " + n, Some("Spending: " + total.text + " EUR"))]);
    SetTvKeepsValid(db, id, year, total.value, Note(id, SystemUser, "TV Campaign synced: " + n, Some("Spending: " + total.text + " EUR")));
  }

  /** Setting a figure and logging a note on a stored advertiser keeps the store's constraints. */
  lemma SetTvKeepsValid(db: DB, advertiserId: nat, year: int, tv: real, note: Activity)
    requires db.Valid() && advertiserId in Ids(db.advertisers) && note.advertiserId == advertiserId
    ensures db.(spending := SetTv(db.spending, advertiserId, year, tv), activities := db.activities + [note]).Valid()
  {
    SetTvRefs(db.spending, Ids(db.advertisers), advertiserId, year, tv);
    var acts := db.activities + [note];
    assert forall k :: 0 <= k < |db.activities| ==> acts[k] == db.activities[k];
  }

  /** Setting a figure keeps every spending row pointing at a stored advertiser. */
  lemma SetTvRefs(rows: seq<SpendingData>, ids: set<nat>, advertiserId: nat, year: int, tv: real)
    requires SpendingRefsOk(rows, ids) && advertiserId in ids
    ensures SpendingRefsOk(SetTv(rows, advertiserId, year, tv), ids)
  {
    var r := SetTv(rows, advertiserId, year, tv);
    forall k | 0 <= k < |r| ensures r[k].advertiserId in ids {
      assert r[k] in r;
      if r[k] in rows {
        var j :| 0 <= j < |rows| && rows[j] == r[k];
      }
    }
  }

  /** A wave payload: `campaign_name` and the text of `name`. */
  datatype WavePayload = WavePayload(campaignName: Field, nameText: string)

  /** `update_spending_from_wave`: one note on the resolved advertiser; spending is not touched. */
  function WaveLogged(db: DB, p: WavePayload): (r: Outcome)
    ensures p.campaignName.Null? <==> r.Raised?
    ensures r.Ok? ==> r.db.advertisers == db.advertisers && r.db.contacts == db.contacts && r.db.spending == db.spending
    ensures r.Ok? ==> |r.db.activities| <= |db.activities| + 1
    ensures db.Valid() && r.Ok? ==> r.db.Valid()
  {
    match p.campaignName
    case Null => Raised("AttributeError: 'NoneType' object has no attribute 'split'")
    case _ =>
      var key := NameKey(Render(p.campaignName.GetOr(Some(""))));
      if key == "" then Ok(db)
      else
        match ResolveId(db.advertisers, Some(key))
        case None => Ok(db)
        case Some(id) =>
          ResolvedIdStored(db.advertisers, Some(key));
          Ok(db.(activities := db.activities + [Note(id, SystemUser, "TV Wave updated: " + p.nameText, None)]))
  }

  // ---------------------------------------------------------------------
  // The signature gate and event dispatch
  // ---------------------------------------------------------------------

  /** The configured inbound secrets, by source. */
  const WebhookSecrets: map<string, string> := map["agency-crm" := "iF-z-4PfaPBYECVQP_lEFVOslDoG6pJjRFnJD-EYPIg"]

  /** `verify_webhook_signature`: the hex digest of secret followed by the body equals the header. */
  predicate VerifyWebhookSignature(hash: string -> string, payload: string, signature: string, secret: string)
  {
    hash(secret + payload) == signature
  }

  /** Text `secrets.compare_digest` accepts as a `str`: every character is ASCII. */
  predicate AsciiOnly(s: string)
  {
    forall k :: 0 <= k < |s| ==> s[k] as int < 128
  }

  /**
   * Whether the gate of `source` raises: a secret is configured and the sent
   * signature holds a non-ASCII character, which `compare_digest` refuses
   * with TypeError. The gate runs before the `try`, so Flask answers 500.
   */
  predicate GateRaises(source: string, signature: Option<string>)
  {
    source in WebhookSecrets && StrTruthy(signature) && !AsciiOnly(signature.value)
  }

  /** Whether the gate of `source` turns a request away: a secret is configured, an ASCII signature is sent, and it does not verify. */
  predicate Rejected(source: string, hash: string -> string, body: string, signature: Option<string>)
  {
    source in WebhookSecrets && StrTruthy(signature) && AsciiOnly(signature.value)
    && !VerifyWebhookSignature(hash, body, signature.value, WebhookSecrets[source])
  }

  /** The same JSON body as each agency-CRM handler reads it. */
  datatype AgencyBody = AgencyBody(
    company: CompanyPayload,
    brand: BrandPayload,
    contact: ContactPayload,
    invoice: InvoicePayload,
    status: StatusUpdatePayload)

  /** An HTTP status code and the store after the request. */
  datatype Reply = Reply(code: int, db: DB)

  function Respond(db: DB, o: Outcome): (r: Reply)
    ensures o.Ok? ==> r == Reply(200, o.db)
    ensures o.Raised? ==> r == Reply(500, db)
  {
    match o
    case Ok(db') => Reply(200, db')
    case Raised(_) => Reply(500, db)
  }

  /** The handler an agency-CRM event runs; an unknown event runs none. */
  function AgencyHandler(db: DB, event: Option<string>, body: AgencyBody): Outcome
  {
    if event == Some("company.created") || event == Some("company.updated") then CompanySynced(db, body.company)
    else if event == Some("brand.created") || event == Some("brand.updated") then BrandSynced(db, body.brand)
    else if event == Some("contact.created") then ContactSynced(db, body.contact)
    else if event == Some("contact.updated") then ContactUpdated(db, body.contact)
    else if event == Some("invoice.created") then Ok(InvoiceLogged(db, body.invoice))
    else if event == Some("status_update.created") then Ok(StatusUpdateLogged(db, body.status))
    else Ok(db)
  }

  predicate KnownAgencyEvent(event: Option<string>)
  {
    event.Some? && event.value in {"company.created", "company.updated", "brand.created", "brand.updated",
                                   "contact.created", "contact.updated", "invoice.created", "status_update.created"}
  }

  /** `webhook_agency_crm` */
  function AgencyCrmReply(db: DB, hash: string -> string, raw: string, signature: Option<string>,
                            event: Option<string>, body: AgencyBody): (r: Reply)
    ensures GateRaises("agency-crm", signature) ==> r == Reply(500, db)
    ensures Rejected("agency-crm", hash, raw, signature) ==> r == Reply(401, db)
    ensures !GateRaises("agency-crm", signature) && !Rejected("agency-crm", hash, raw, signature) && !KnownAgencyEvent(event) ==>
      r == Reply(200, db)
    ensures r.code in {200, 401, 500}
    ensures r.code != 200 ==> r.db == db
  {
    if GateRaises("agency-crm", signature) then Reply(500, db)
    else if Rejected("agency-crm", hash, raw, signature) then Reply(401, db)
    else Respond(db, AgencyHandler(db, event, body))
  }

  /** The same JSON body as each TV-planner handler reads it. */
  datatype TvBody = TvBody(campaign: CampaignPayload, wave: WavePayload)

  /** `webhook_tv_planner`, with the current year as a parameter. */
  function TvPlannerReply(db: DB, hash: string -> string, raw: string, signature: Option<string>,
                            event: Option<string>, body: TvBody, year: int): (r: Reply)
    ensures r.code in {200, 500}
    ensures r.code == 500 ==> r.db == db
    ensures event !in {Some("campaign.created"), Some("campaign.updated"), Some("wave.created"), Some("wave.updated")} ==> r == Reply(200, db)
  {
    if Rejected("tv-planner", hash, raw, signature) then Reply(401, db)
    else if event == Some("campaign.created") || event == Some("campaign.updated") then
      Respond(db, CampaignSynced(db, body.campaign, year))
    else if event == Some("wave.created") || event == Some("wave.updated") then
      Respond(db, WaveLogged(db, body.wave))
    else Reply(200, db)
  }

  /** With no secret configured for the TV planner, no signature, however wrong, is ever rejected. */
  lemma TvPlannerNeverRejects(hash: string -> string, raw: string, signature: Option<string>)
    ensures !Rejected("tv-planner", hash, raw, signature)
  {
    assert "tv-planner" !in WebhookSecrets;
  }

  /**
   * The gate's three answers exclude each other: a signed request to the
   * agency-CRM endpoint raises exactly when its signature is not ASCII, is
   * turned away when an ASCII signature does not verify, and passes otherwise.
   */
  lemma GateOutcomes(hash: string -> string, raw: string, sig: string)
    requires sig != ""
    ensures GateRaises("agency-crm", Some(sig)) <==> exists k :: 0 <= k < |sig| && sig[k] as int >= 128
    ensures !(GateRaises("agency-crm", Some(sig)) && Rejected("agency-crm", hash, raw, Some(sig)))
    ensures !GateRaises("agency-crm", Some(sig)) ==>
      (Rejected("agency-crm", hash, raw, Some(sig)) <==> hash(WebhookSecrets["agency-crm"] + raw) != sig)
  {
    assert "agency-crm" in WebhookSecrets;
  }

  /** A request without a signature header is never rejected, whatever the source. */
  lemma UnsignedPasses(source: string, hash: string -> string, raw: string)
    ensures !Rejected(source, hash, raw, None) && !Rejected(source, hash, raw, Some(""))
    ensures !GateRaises(source, None) && !GateRaises(source, Some(""))
  {
  }

  /** Every agency-CRM handler keeps the store's constraints. */
  lemma AgencyHandlerValid(db: DB, event: Option<string>, body: AgencyBody)
    requires db.Valid()
    ensures AgencyHandler(db, event, body).Ok? ==> AgencyHandler(db, event, body).db.Valid()
  {
    if event == Some("company.created") || event == Some("company.updated") {
      if body.company.name.Str? { CompanySyncUpserts(db, body.company); }
    } else if event == Some("brand.created") || event == Some("brand.updated") {
      if !body.brand.name.Absent? { BrandSyncUpserts(db, body.brand); }
    } else if event == Some("contact.created") {
      ContactSyncedValid(db, body.contact);
    } else if event == Some("contact.updated") {
      if ContactUpdated(db, body.contact).Ok? { ContactUpdateValid(db, body.contact); }
    }
  }

  /** A contact creation or redirect keeps the store's constraints. */
  lemma ContactSyncedValid(db: DB, p: ContactPayload)
    requires db.Valid()
    ensures ContactSynced(db, p).Ok? ==> ContactSynced(db, p).db.Valid()
  {
    if Creates(db, p) {
      ContactSyncCreates(db, p);
    } else if p.email.Truthy() && IntTruthy(p.id) && ContactByCrmId(db.contacts, p.id).Some? {
      if ContactUpdated(db, p).Ok? { ContactUpdateValid(db, p); }
    }
  }

  /** Every TV-planner handler keeps the store's constraints. */
  lemma CampaignSyncedValid(db: DB, p: CampaignPayload, year: int)
    requires db.Valid()
    ensures CampaignSynced(db, p, year).Ok? ==> CampaignSynced(db, p, year).db.Valid()
  {
    if p.name.Str? && NameKey(p.name.s) != "" && ResolveId(db.advertisers, Some(NameKey(p.name.s))).Some? {
      CampaignOverwritesTv(db, p, year);
    }
  }

  // ---------------------------------------------------------------------
  // The handlers, carried out on the session in place
  // ---------------------------------------------------------------------

  /** `sync_company_to_advertiser` (intended form); `ok` is false when it raises and nothing is committed. */
  method SyncCompanyToAdvertiser(store: Store, p: CompanyPayload) returns (ok: bool)
    requires store.Valid()
    modifies store
    ensures store.Valid()
    ensures ok == CompanySynced(old(store.Value()), p).Ok?
    ensures store.Value() == if ok then CompanySynced(old(store.Value()), p).db else old(store.Value())
  {
    if !p.name.Str? {
      return false;
    }
    ghost var before := store.Value();
    var name := p.name.s;
    var found := ByName(store.advertisers, name);
    if found.None? {
      var id := store.AddAdvertiser(name, Some(OurAgency), Ours);
      store.activities := store.activities + [CompanyNote(id, p.idText)];
      assert store.Value() == CompanyAdded(before, name, p.idText);
    } else {
      var k := found.value;
      var a := store.advertisers[k];
      store.advertisers := store.advertisers[k := a.(leadStatus := Ours)];
      store.activities := store.activities + [CompanyNote(a.id, p.idText)];
      assert store.Value() == CompanyMarked(before, k, p.idText);
    }
    ok := true;
  }

  /** `sync_brand_to_advertiser` (intended form). */
  method SyncBrandToAdvertiser(store: Store, p: BrandPayload) returns (ok: bool)
    requires store.Valid()
    modifies store
    ensures store.Valid()
    ensures ok == BrandSynced(old(store.Value()), p).Ok?
    ensures store.Value() == if ok then BrandSynced(old(store.Value()), p).db else old(store.Value())
  {
    var name := BrandAdvertiserName(p);
    if name.None? {
      return false;
    }
    ghost var before := store.Value();
    var found := ByName(store.advertisers, name.value);
    if found.None? {
      var id := store.AddAdvertiser(name.value, Some(OurAgency), Ours);
      store.activities := store.activities + [BrandNote(id, p.idText)];
      assert store.Value() == before.WithAdvertiser(name.value, Some(OurAgency), Ours).WithActivity(BrandNote(id, p.idText));
    } else {
      var id := store.advertisers[found.value].id;
      IdAt(store.advertisers, found.value);
      store.activities := store.activities + [BrandNote(id, p.idText)];
      assert store.Value() == before.WithActivity(BrandNote(id, p.idText));
    }
    ok := true;
  }

  /** The loop of `sync_contact` over the brands: the notes it adds, in order. */
  method CollectCreationNotes(advs: seq<Advertiser>, brands: seq<string>, primary: Option<nat>, c: Contact)
    returns (notes: seq<Activity>)
    ensures notes == CreationNotes(advs, brands, primary, c)
  {
    notes := [];
    var i := 0;
    while i < |brands|
      invariant 0 <= i <= |brands|
      invariant notes == CreationNotes(advs, brands[..i], primary, c)
    {
      var id := ResolveId(advs, Some(brands[i]));
      if id.Some? {
        if primary.None? || id.value != primary.value {
          notes := notes + [RelationshipNote(id.value, c)];
        } else {
          notes := notes + [SyncNote(id.value, c)];
        }
      }
      assert brands[..i + 1][..i] == brands[..i];
      i := i + 1;
    }
    assert brands[..|brands|] == brands;
  }

  /** The loop of `update_contact` over the brands: one relationship note per secondary brand. */
  method CollectRelationshipNotes(advs: seq<Advertiser>, brands: seq<string>, primary: Option<nat>, c: Contact)
    returns (notes: seq<Activity>)
    ensures notes == RelationshipNotes(advs, brands, primary, c)
  {
    notes := [];
    var i := 0;
    while i < |brands|
      invariant 0 <= i <= |brands|
      invariant notes == RelationshipNotes(advs, brands[..i], primary, c)
    {
      if Secondary(advs, brands[i], primary) {
        notes := notes + [RelationshipNote(ResolveId(advs, Some(brands[i])).value, c)];
      }
      assert brands[..i + 1][..i] == brands[..i];
      i := i + 1;
    }
    assert brands[..|brands|] == brands;
  }

  /** The deletion loop of `update_contact`: the activities that survive, in order. */
  method RemoveMarked(acts: seq<Activity>, marker: string) returns (kept: seq<Activity>)
    ensures kept == WithoutMarker(acts, marker)
  {
    kept := [];
    var j := 0;
    while j < |acts|
      invariant 0 <= j <= |acts|
      invariant kept == WithoutMarker(acts[..j], marker)
    {
      assert acts[..j + 1] == acts[..j] + [acts[j]];
      WithoutMarkerSnoc(acts[..j], acts[j], marker);
      if !HasMarker(acts[j], marker) {
        kept := kept + [acts[j]];
      }
      j := j + 1;
    }
    assert acts[..|acts|] == acts;
  }

  /** `sync_contact` */
  method SyncContact(store: Store, p: ContactPayload) returns (ok: bool)
    requires store.Valid()
    modifies store
    ensures store.Valid()
    ensures ok == ContactSynced(old(store.Value()), p).Ok?
    ensures store.Value() == if ok then ContactSynced(old(store.Value()), p).db else old(store.Value())
  {
    if !p.email.Truthy() {
      return true;
    }
    if IntTruthy(p.id) && ContactByCrmId(store.contacts, p.id).Some? {
      ok := UpdateContact(store, p);
      return;
    }
    ok := CreateContact(store, p);
  }

  /** The creation path of `sync_contact`. */
  method CreateContact(store: Store, p: ContactPayload) returns (ok: bool)
    requires store.Valid() && p.email.Str?
    modifies store
    ensures store.Valid()
    ensures ok == ContactCreation(old(store.Value()), p).Ok?
    ensures store.Value() == if ok then ContactCreation(old(store.Value()), p).db else old(store.Value())
  {
    var first := p.firstName.GetOr(Some(""));
    var last := p.lastName.GetOr(Some(""));
    if first.None? || last.None? || p.brands.None? {
      return false;
    }
    ghost var before := store.Value();
    var brands := p.brands.value;
    var primary := PrimaryId(store.advertisers, brands);
    var c := Contact(primary, p.id, first.value, last.value, Some(p.email.s),
                     p.phone.GetOr(None), p.linkedinUrl.GetOr(None), SystemUser);
    var notes := CollectCreationNotes(store.advertisers, brands, primary, c);
    if primary.Some? {
      ResolvedIdStored(store.advertisers, Some(brands[0]));
    }
    ghost var after := ContactCreated(before, brands, c);
    store.contacts, store.activities := store.contacts + [c], store.activities + notes;
    assert store.Value() == after;
    ok := true;
  }

  /** `update_contact` */
  method UpdateContact(store: Store, p: ContactPayload) returns (ok: bool)
    requires store.Valid()
    modifies store
    ensures store.Valid()
    ensures ok == ContactUpdated(old(store.Value()), p).Ok?
    ensures store.Value() == if ok then ContactUpdated(old(store.Value()), p).db else old(store.Value())
  {
    var target := LookupTarget(store.contacts, p);
    if target.None? {
      return true;
    }
    var k := target.value.index;
    var merged := Merged(store.contacts[k], target.value, p);
    if merged.None? {
      return false;
    }
    ghost var before := store.Value();
    var c := merged.value;
    var kept := RemoveMarked(store.activities, RelationshipMarker(c.firstName, c.lastName));
    var brands := BrandList(p);
    var primary := PrimaryId(store.advertisers, brands);
    c := c.(advertiserId := primary);
    var notes := CollectRelationshipNotes(store.advertisers, brands, primary, c);
    ContactUpdateValid(before, p);
    store.contacts := store.contacts[k := c];
    store.activities := kept + notes;
    ok := true;
  }

  /** `create_invoice_activity` */
  method CreateInvoiceActivity(store: Store, p: InvoicePayload)
    requires store.Valid()
    modifies store
    ensures store.Valid()
    ensures store.Value() == InvoiceLogged(old(store.Value()), p)
  {
    var id := ResolveId(store.advertisers, p.brandName.GetOr(Some("")));
    if id.Some? {
      store.activities := store.activities + [InvoiceNote(id.value, p)];
    }
  }

  /** `create_status_update_activity` */
  method CreateStatusUpdateActivity(store: Store, p: StatusUpdatePayload)
    requires store.Valid()
    modifies store
    ensures store.Valid()
    ensures store.Value() == StatusUpdateLogged(old(store.Value()), p)
  {
    var id := ResolveId(store.advertisers, p.brandName.GetOr(Some("")));
    if id.Some? {
      store.activities := store.activities + [StatusNote(id.value, p)];
    }
  }

  /** `sync_campaign_spending`, with the current year as a parameter. */
  method SyncCampaignSpending(store: Store, p: CampaignPayload, year: int) returns (ok: bool)
    requires store.Valid()
    modifies store
    ensures store.Valid()
    ensures ok == CampaignSynced(old(store.Value()), p, year).Ok?
    ensures store.Value() == if ok then CampaignSynced(old(store.Value()), p, year).db else old(store.Value())
  {
    if p.name.Null? {
      return false;
    }
    ghost var before := store.Value();
    ok := true;
    if p.name.Absent? {
      return;
    }
    var name := p.name.s;
    var key := NameKey(name);
    if key == "" {
      return;
    }
    var id := ResolveId(store.advertisers, Some(key));
    if id.None? {
      return;
    }
    var total := TotalSpending(p);
    var note := Note(id.value, SystemUser, "TV Campaign synced: " + name, Some("Spending: " + total.text + " EUR"));
    ResolvedIdStored(store.advertisers, Some(key));
    SetCampaignTv(store, id.value, year, total.value, note);
  }

  /** The end of `sync_campaign_spending`: get or create the (advertiser, year) row, set `tv`, log the note. */
  method SetCampaignTv(store: Store, advertiserId: nat, year: int, tv: real, note: Activity)
    requires store.Valid() && advertiserId in Ids(store.advertisers) && note.advertiserId == advertiserId
    modifies store
    ensures store.Valid()
    ensures store.Value() == old(store.Value()).(spending := SetTv(old(store.spending), advertiserId, year, tv),
                                                 activities := old(store.activities) + [note])
  {
    SetTvKeepsValid(store.Value(), advertiserId, year, tv, note);
    var row := SpendingRow(store.spending, advertiserId, year);
    var rows;
    if row.None? {
      rows := store.spending + [EmptySpending(advertiserId, year).(tv := tv)];
    } else {
      rows := store.spending[row.value := store.spending[row.value].(tv := tv)];
    }
    store.spending, store.activities := rows, store.activities + [note];
  }

  /** `update_spending_from_wave` */
  method UpdateSpendingFromWave(store: Store, p: WavePayload) returns (ok: bool)
    requires store.Valid()
    modifies store
    ensures store.Valid()
    ensures ok == WaveLogged(old(store.Value()), p).Ok?
    ensures store.Value() == if ok then WaveLogged(old(store.Value()), p).db else old(store.Value())
  {
    if p.campaignName.Null? {
      return false;
    }
    ok := true;
    var key := NameKey(Render(p.campaignName.GetOr(Some(""))));
    if key == "" {
      return;
    }
    var id := ResolveId(store.advertisers, Some(key));
    if id.Some? {
      ResolvedIdStored(store.advertisers, Some(key));
      store.activities := store.activities + [Note(id.value, SystemUser, "TV Wave updated: " + p.nameText, None)];
    }
  }

  /** `webhook_agency_crm`: the signature gate, then the handler for the event. */
  method WebhookAgencyCrm(store: Store, hash: string -> string, raw: string, signature: Option<string>,
                          event: Option<string>, body: AgencyBody) returns (code: int)
    requires store.Valid()
    modifies store
    ensures store.Valid()
    ensures Reply(code, store.Value()) == AgencyCrmReply(old(store.Value()), hash, raw, signature, event, body)
  {
    if GateRaises("agency-crm", signature) {
      return 500;
    }
    if Rejected("agency-crm", hash, raw, signature) {
      return 401;
    }
    var ok := HandleAgencyEvent(store, event, body);
    code := if ok then 200 else 500;
  }

  /** The dispatch of `webhook_agency_crm` on the event type; `ok` is false when the handler raised. */
  method HandleAgencyEvent(store: Store, event: Option<string>, body: AgencyBody) returns (ok: bool)
    requires store.Valid()
    modifies store
    ensures store.Valid()
    ensures ok == AgencyHandler(old(store.Value()), event, body).Ok?
    ensures store.Value() == if ok then AgencyHandler(old(store.Value()), event, body).db else old(store.Value())
  {
    ok := true;
    if event == Some("company.created") || event == Some("company.updated") {
      ok := SyncCompanyToAdvertiser(store, body.company);
    } else if event == Some("brand.created") || event == Some("brand.updated") {
      ok := SyncBrandToAdvertiser(store, body.brand);
    } else if event == Some("contact.created") {
      ok := SyncContact(store, body.contact);
    } else if event == Some("contact.updated") {
      ok := UpdateContact(store, body.contact);
    } else if event == Some("invoice.created") {
      CreateInvoiceActivity(store, body.invoice);
    } else if event == Some("status_update.created") {
      CreateStatusUpdateActivity(store, body.status);
    }
  }

  /** `webhook_tv_planner`, with the current year as a parameter. */
  method WebhookTvPlanner(store: Store, hash: string -> string, raw: string, signature: Option<string>,
                          event: Option<string>, body: TvBody, year: int) returns (code: int)
    requires store.Valid()
    modifies store
    ensures store.Valid()
    ensures Reply(code, store.Value()) == TvPlannerReply(old(store.Value()), hash, raw, signature, event, body, year)
  {
    if Rejected("tv-planner", hash, raw, signature) {
      return 401;
    }
    var ok := true;
    if event == Some("campaign.created") || event == Some("campaign.updated") {
      ok := SyncCampaignSpending(store, body.campaign, year);
    } else if event == Some("wave.created") || event == Some("wave.updated") {
      ok := UpdateSpendingFromWave(store, body.wave);
    }
    code := if ok then 200 else 500;
  }
}
