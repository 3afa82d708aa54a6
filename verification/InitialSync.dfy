/**
 * The one-off initial import: every company, brand, contact, recent
 * invoice and status update of the agency CRM, then every campaign and
 * contact of the TV planner, written into the store in one session that
 * is committed at the end. Each item is specified by a function from the
 * store before to the store after (or to a raise, for the inserts whose
 * flush fails); the methods on `Store` at the end carry the steps out in
 * place, one loop per feed.
 */
module InitialSync {

  import opened Common
  import opened Text
  import opened Models
  import opened Resolver
  import opened IntegrationRoutes

  const PotentialClient: string := "Potential Client"
  const TvPlannerContact: string := "TV Planner Contact"
  const TvPlannerClient: string := "TV Planner Client"

  /** What a failed flush reports; the whole session is rolled back after it. */
  const FlushFailed: string := "IntegrityError: NOT NULL constraint failed"

  // ---------------------------------------------------------------------
  // Companies and brands
  // ---------------------------------------------------------------------

  /** A company of the agency CRM: its `name` and the text of its `id`. */
  datatype CrmCompany = CrmCompany(name: string, idText: string)

  function CompanyImportNote(advertiserId: nat, userId: nat, idText: string): Activity
  {
    Note(advertiserId, userId, "Initial sync: Company from Agency CRM (ID: " + idText + ")", Some("Data synchronized"))
  }

  /** `sync_company_to_advertiser`: create the advertiser with a note, or mark the existing one `ours`. */
  function CompanyImported(db: DB, c: CrmCompany, userId: nat): (r: DB)
    ensures r.contacts == db.contacts && r.spending == db.spending
  {
    match ByName(db.advertisers, c.name)
    case None =>
      var d := db.WithAdvertiser(c.name, Some(OurAgency), Ours);
      d.(activities := d.activities + [CompanyImportNote(db.nextAdvertiserId, userId, c.idText)])
    case Some(k) => db.(advertisers := db.advertisers[k := db.advertisers[k].(leadStatus := Ours)])
  }

  /**
   * What importing company `c` into `db` must leave in `r`: a valid store
   * with exactly one advertiser of its name, with status `ours`; a note only
   * for a new advertiser; every other advertiser untouched.
   */
  ghost predicate CompanyUpserted(db: DB, c: CrmCompany, userId: nat, r: DB)
  {
    var free := NameFree(db.advertisers, c.name);
    && r.Valid()
    && ByName(r.advertisers, c.name).Some?
    && r.advertisers[ByName(r.advertisers, c.name).value].leadStatus == Ours
    && |r.advertisers| == |db.advertisers| + (if free then 1 else 0)
    && (forall k :: 0 <= k < |db.advertisers| && db.advertisers[k].name != c.name ==> r.advertisers[k] == db.advertisers[k])
    && r.activities == db.activities + (if free then [CompanyImportNote(db.nextAdvertiserId, userId, c.idText)] else [])
  }

  /**
   * After importing a company there is exactly one advertiser with its
   * name, with status `ours`; a note is written only for a new
   * advertiser, and every other advertiser is untouched.
   */
  lemma CompanyImportUpserts(db: DB, c: CrmCompany, userId: nat)
    requires db.Valid()
    ensures CompanyUpserted(db, c, userId, CompanyImported(db, c, userId))
  {
    match ByName(db.advertisers, c.name)
    case None => CompanyInserted(db, c, userId);
    case Some(k) => CompanyMarkedOurs(db, c, userId, k);
  }

  lemma CompanyInserted(db: DB, c: CrmCompany, userId: nat)
    requires db.Valid() && ByName(db.advertisers, c.name).None?
    ensures CompanyUpserted(db, c, userId, CompanyImported(db, c, userId))
  {
    var r := CompanyImported(db, c, userId);
    IdAt(r.advertisers, |db.advertisers|);
    ByNameOfStoredName(r.advertisers, |db.advertisers|);
  }

  lemma CompanyMarkedOurs(db: DB, c: CrmCompany, userId: nat, k: nat)
    requires db.Valid() && ByName(db.advertisers, c.name) == Some(k)
    ensures CompanyUpserted(db, c, userId, CompanyImported(db, c, userId))
  {
    var r := CompanyImported(db, c, userId);
    var a := db.advertisers[k].(leadStatus := Ours);
    IdsUpdate(db.advertisers, k, a);
    assert r.advertisers == db.advertisers[k := a];
    assert NamesUnique(r.advertisers);
    ByNameOfStoredName(r.advertisers, k);
  }

  /** Importing the same company again changes nothing. */
  lemma CompanyImportTwice(db: DB, c: CrmCompany, userId: nat)
    requires db.Valid()
    ensures CompanyImported(CompanyImported(db, c, userId), c, userId) == CompanyImported(db, c, userId)
  {
    CompanyImportUpserts(db, c, userId);
    var r := CompanyImported(db, c, userId);
    var k := ByName(r.advertisers, c.name).value;
    assert r.advertisers[k := r.advertisers[k].(leadStatus := Ours)] == r.advertisers;
  }

  /** A brand of the agency CRM: `name`, `company_name` and the text of its `id`. */
  datatype CrmBrand = CrmBrand(name: string, companyName: Field, idText: string)

  /** `f"{brand.get('company_name', 'Unknown')} - {brand['name']}"`: a null company name prints as "None". */
  function CrmBrandName(b: CrmBrand): (r: string)
    ensures Contains(r, b.name)
  {
    var prefix := Render(b.companyName.GetOr(Some("Unknown"))) + " - ";
    ContainsItself(b.name);
    ContainsConcat(prefix, b.name, b.name);
    prefix + b.name
  }

  function BrandImportNote(advertiserId: nat, userId: nat, idText: string): Activity
  {
    Note(advertiserId, userId, "Initial sync: Brand from Agency CRM (Brand ID: " + idText + ")", Some("Data synchronized"))
  }

  /** `sync_brand_to_advertiser`: create the advertiser with a note unless the name is taken. */
  function BrandImported(db: DB, b: CrmBrand, userId: nat): (r: DB)
    ensures !NameFree(db.advertisers, CrmBrandName(b)) ==> r == db
    ensures NameFree(db.advertisers, CrmBrandName(b)) ==>
              && r.advertisers == db.advertisers + [Advertiser(db.nextAdvertiserId, CrmBrandName(b), Some(OurAgency), Ours)]
              && r.activities == db.activities + [BrandImportNote(db.nextAdvertiserId, userId, b.idText)]
              && r.contacts == db.contacts && r.spending == db.spending
    ensures db.Valid() ==> r.Valid()
  {
    var name := CrmBrandName(b);
    match ByName(db.advertisers, name)
    case None =>
      var d := db.WithAdvertiser(name, Some(OurAgency), Ours);
      IdAt(d.advertisers, |db.advertisers|);
      d.(activities := d.activities + [BrandImportNote(db.nextAdvertiserId, userId, b.idText)])
    case Some(_) => db
  }

  /** Importing a brand twice is importing it once, and afterwards the brand's advertiser exists. */
  lemma BrandImportTwice(db: DB, b: CrmBrand, userId: nat)
    ensures BrandImported(BrandImported(db, b, userId), b, userId) == BrandImported(db, b, userId)
    ensures !NameFree(BrandImported(db, b, userId).advertisers, CrmBrandName(b))
  {
    var r := BrandImported(db, b, userId);
    if NameFree(db.advertisers, CrmBrandName(b)) {
      assert r.advertisers[|db.advertisers|].name == CrmBrandName(b);
    }
  }

  // ---------------------------------------------------------------------
  // Contacts of the agency CRM: one row per (advertiser, email)
  // ---------------------------------------------------------------------

  /**
   * A contact of the agency CRM: `email`, `first_name` and `last_name`
   * (missing keys read as ""), `phone`, `linkedin_url`, and the names of
   * its brands (a missing list reads as empty).
   */
  datatype CrmContact = CrmContact(
    email: Option<string>,
    firstName: Field,
    lastName: Field,
    phone: Option<string>,
    linkedinUrl: Option<string>,
    brands: seq<string>)

  /** The row written for `c` under some advertiser; the advertiser is filled in per brand. */
  function CrmContactTemplate(c: CrmContact, userId: nat): Contact
  {
    Contact(None, None, OrElse(c.firstName.GetOr(Some("")), ""), OrElse(c.lastName.GetOr(Some("")), ""),
            c.email, c.phone, c.linkedinUrl, userId)
  }

  /** At most one contact with `email` per advertiser. */
  predicate OnePerAdvertiser(contacts: seq<Contact>, email: string)
  {
    forall i, j ::
      (0 <= i < j < |contacts| && contacts[i].email == Some(email) && contacts[j].email == Some(email)
       && contacts[i].advertiserId.Some?) ==> contacts[i].advertiserId != contacts[j].advertiserId
  }

  /**
   * The loop of `sync_contact_from_crm` over the brands: for each brand
   * that resolves to an advertiser without a contact of this email, one
   * copy of `t` under that advertiser.
   */
  function AddedPerBrand(advs: seq<Advertiser>, contacts: seq<Contact>, brands: seq<string>, t: Contact): (r: seq<Contact>)
    requires t.email.Some?
    ensures contacts <= r
    ensures forall k :: |contacts| <= k < |r| ==>
              r[k].advertiserId.Some? && r[k].advertiserId.value in Ids(advs)
              && r[k] == t.(advertiserId := r[k].advertiserId)
    ensures OnePerAdvertiser(contacts, t.email.value) ==> OnePerAdvertiser(r, t.email.value)
    decreases |brands|
  {
    if brands == [] then contacts
    else
      var cs := AddedPerBrand(advs, contacts, brands[..|brands| - 1], t);
      match ResolveId(advs, Some(brands[|brands| - 1]))
      case None => cs
      case Some(id) =>
        ResolvedIdStored(advs, Some(brands[|brands| - 1]));
        if ContactAt(cs, id, t.email.value).Some? then cs else cs + [t.(advertiserId := Some(id))]
  }

  /** After the loop, every brand that resolves has a contact of this email under its advertiser. */
  lemma {:induction false} AddedPerBrandCovers(advs: seq<Advertiser>, contacts: seq<Contact>, brands: seq<string>, t: Contact)
    requires t.email.Some?
    ensures forall b :: b in brands && ResolveId(advs, Some(b)).Some? ==>
              ContactAt(AddedPerBrand(advs, contacts, brands, t), ResolveId(advs, Some(b)).value, t.email.value).Some?
    decreases |brands|
  {
    if brands != [] {
      var init := brands[..|brands| - 1];
      var cs := AddedPerBrand(advs, contacts, init, t);
      var r := AddedPerBrand(advs, contacts, brands, t);
      AddedPerBrandCovers(advs, contacts, init, t);
      assert cs <= r;
      forall b | b in brands && ResolveId(advs, Some(b)).Some?
        ensures ContactAt(r, ResolveId(advs, Some(b)).value, t.email.value).Some?
      {
        var id := ResolveId(advs, Some(b)).value;
        if b in init {
          var j := ContactAt(cs, id, t.email.value).value;
          assert r[j] == cs[j];
        } else {
          assert b == brands[|brands| - 1];
          if ContactAt(cs, id, t.email.value).Some? {
            var j := ContactAt(cs, id, t.email.value).value;
            assert r[j] == cs[j];
          } else {
            assert r[|cs|] == t.(advertiserId := Some(id));
          }
        }
      }
    }
  }

  /** When every brand that resolves already has its contact, the loop adds nothing. */
  lemma {:induction false} AddedPerBrandNothingNew(advs: seq<Advertiser>, contacts: seq<Contact>, brands: seq<string>, t: Contact)
    requires t.email.Some?
    requires forall b :: b in brands && ResolveId(advs, Some(b)).Some? ==>
               ContactAt(contacts, ResolveId(advs, Some(b)).value, t.email.value).Some?
    ensures AddedPerBrand(advs, contacts, brands, t) == contacts
    decreases |brands|
  {
    if brands != [] {
      var init := brands[..|brands| - 1];
      forall b | b in init ensures b in brands { }
      AddedPerBrandNothingNew(advs, contacts, init, t);
      assert brands[|brands| - 1] in brands;
    }
  }

  /** `sync_contact_from_crm`; a row with a null first or last name fails at the flush. */
  function CrmContactImported(db: DB, c: CrmContact, userId: nat): (r: Outcome)
    ensures !StrTruthy(c.email) ==> r == Ok(db)
    ensures r.Ok? ==> r.db.advertisers == db.advertisers && r.db.activities == db.activities && r.db.spending == db.spending
    ensures r.Ok? ==> db.contacts <= r.db.contacts
    ensures r.Raised? ==> r.error == FlushFailed && (c.firstName.Null? || c.lastName.Null?)
  {
    if !StrTruthy(c.email) then Ok(db)
    else
      var added := AddedPerBrand(db.advertisers, db.contacts, c.brands, CrmContactTemplate(c, userId));
      if |added| > |db.contacts| && (c.firstName.Null? || c.lastName.Null?) then Raised(FlushFailed)
      else Ok(db.(contacts := added))
  }

  /**
   * Importing a contact keeps the store's constraints and at most one
   * contact per (advertiser, email); afterwards every brand that resolves
   * has the contact, and importing it again changes nothing.
   */
  lemma CrmContactImportProperties(db: DB, c: CrmContact, userId: nat)
    requires db.Valid() && StrTruthy(c.email) && CrmContactImported(db, c, userId).Ok?
    ensures
      var r := CrmContactImported(db, c, userId).db;
      && r.Valid()
      && (OnePerAdvertiser(db.contacts, c.email.value) ==> OnePerAdvertiser(r.contacts, c.email.value))
      && (forall b :: b in c.brands && ResolveId(db.advertisers, Some(b)).Some? ==>
            ContactAt(r.contacts, ResolveId(db.advertisers, Some(b)).value, c.email.value).Some?)
      && CrmContactImported(r, c, userId) == Ok(r)
  {
    var t := CrmContactTemplate(c, userId);
    var r := CrmContactImported(db, c, userId).db;
    AddedPerBrandCovers(db.advertisers, db.contacts, c.brands, t);
    AddedPerBrandNothingNew(db.advertisers, r.contacts, c.brands, t);
    forall k | 0 <= k < |r.contacts| && r.contacts[k].advertiserId.Some?
      ensures r.contacts[k].advertiserId.value in Ids(r.advertisers)
    {
      if k < |db.contacts| {
        assert r.contacts[k] == db.contacts[k];
      }
    }
  }

  // ---------------------------------------------------------------------
  // Contacts of the TV planner
  // ---------------------------------------------------------------------

  /** A contact of the TV planner: `email`, `name`, `company` and `phone`. */
  datatype TvContact = TvContact(email: Option<string>, name: Option<string>, company: Field, phone: Option<string>)

  /** `name.split(' ')[0]` when the name is non-empty, "" otherwise. */
  function TvFirstName(name: Option<string>): string
  {
    if StrTruthy(name) then SplitOn(name.value, ' ')[0] else ""
  }

  /** `' '.join(name.split(' ')[1:])` when the name is non-empty, "" otherwise. */
  function TvLastName(name: Option<string>): string
  {
    if StrTruthy(name) then Join(SplitOn(name.value, ' ')[1..], ' ') else ""
  }

  /** The two halves of a TV-planner name put back together give the name. */
  lemma {:induction false} TvNameRoundTrip(name: string)
    requires name != ""
    ensures ' ' !in TvFirstName(Some(name))
    ensures ' ' in name ==> TvFirstName(Some(name)) + " " + TvLastName(Some(name)) == name
    ensures ' ' !in name ==> TvFirstName(Some(name)) == name && TvLastName(Some(name)) == ""
  {
    var parts := SplitOn(name, ' ');
    JoinSplit(name, ' ');
    if |parts| == 1 {
      assert Join(parts, ' ') == parts[0];
      assert parts[1..] == [];
    } else {
      assert Join(parts, ' ') == parts[0] + [' '] + Join(parts[1..], ' ');
      assert name[|parts[0]|] == ' ';
    }
  }

  /** The contact row for `c` under advertiser `id`, unless one with this email is there already. */
  function WithTvContact(db: DB, id: nat, c: TvContact, userId: nat): (r: DB)
    requires c.email.Some?
    ensures ContactAt(r.contacts, id, c.email.value).Some?
    ensures r.advertisers == db.advertisers && r.activities == db.activities && r.spending == db.spending
    ensures db.contacts <= r.contacts && |r.contacts| <= |db.contacts| + 1
    ensures OnePerAdvertiser(db.contacts, c.email.value) ==> OnePerAdvertiser(r.contacts, c.email.value)
  {
    if ContactAt(db.contacts, id, c.email.value).Some? then
      var j := ContactAt(db.contacts, id, c.email.value).value;
      db
    else
      var row := Contact(Some(id), None, TvFirstName(c.name), TvLastName(c.name), c.email, c.phone, None, userId);
      var r := db.contacts + [row];
      assert r[|db.contacts|] == row;
      db.(contacts := r)
  }

  /**
   * The advertiser a TV-planner contact is filed under: the first whose
   * name contains `company`, else the one named `company` (or "TV
   * Planner Contact" when the key is missing), created as a cold
   * "Potential Client" if need be. None when that name is null.
   */
  function TvAdvertiser(db: DB, company: Field): (r: Option<(DB, nat)>)
    ensures r.None? <==> company.Null?
    ensures r.Some? ==> db.Valid() ==> r.value.0.Valid() && r.value.1 in Ids(r.value.0.advertisers)
    ensures r.Some? ==> r.value.0.contacts == db.contacts && r.value.0.activities == db.activities
                        && r.value.0.spending == db.spending && db.advertisers <= r.value.0.advertisers
  {
    var found := if company.Truthy() then ResolveId(db.advertisers, Some(company.s)) else None;
    if found.Some? then
      ResolvedIdStored(db.advertisers, Some(company.s));
      Some((db, found.value))
    else
      match company.GetOr(Some(TvPlannerContact))
      case None => None
      case Some(name) =>
        match ByName(db.advertisers, name)
        case Some(k) =>
          IdAt(db.advertisers, k);
          Some((db, db.advertisers[k].id))
        case None =>
          var d := db.WithAdvertiser(name, Some(PotentialClient), Cold);
          IdAt(d.advertisers, |db.advertisers|);
          Some((d, db.nextAdvertiserId))
  }

  /** The advertiser lookup finds the same advertiser again once it exists. */
  lemma TvAdvertiserStable(db: DB, company: Field)
    requires db.Valid() && TvAdvertiser(db, company).Some?
    ensures TvAdvertiser(TvAdvertiser(db, company).value.0, company) == Some((TvAdvertiser(db, company).value.0, TvAdvertiser(db, company).value.1))
  {
    var (d, id) := TvAdvertiser(db, company).value;
    var found := if company.Truthy() then ResolveId(db.advertisers, Some(company.s)) else None;
    if found.None? {
      var name := company.GetOr(Some(TvPlannerContact)).value;
      if ByName(db.advertisers, name).None? {
        var n := |db.advertisers|;
        assert d.advertisers == db.advertisers + [Advertiser(id, name, Some(PotentialClient), Cold)];
        if company.Truthy() {
          ContainsItself(name);
          assert Contains(d.advertisers[n].name, company.s);
          FirstIsUnique(d.advertisers, (a: Advertiser) => Contains(a.name, company.s), n);
        } else {
          FirstIsUnique(d.advertisers, (a: Advertiser) => a.name == name, n);
        }
      }
    }
  }

  /** `sync_contact_from_tv` */
  function TvContactImported(db: DB, c: TvContact, userId: nat): (r: Outcome)
    ensures !StrTruthy(c.email) ==> r == Ok(db)
    ensures r.Raised? <==> StrTruthy(c.email) && c.company.Null?
    ensures r.Raised? ==> r.error == FlushFailed
    ensures r.Ok? ==> db.advertisers <= r.db.advertisers && |r.db.advertisers| <= |db.advertisers| + 1
    ensures r.Ok? ==> r.db.activities == db.activities && r.db.spending == db.spending && db.contacts <= r.db.contacts
  {
    if !StrTruthy(c.email) then Ok(db)
    else
      match TvAdvertiser(db, c.company)
      case None => Raised(FlushFailed)
      case Some(target) => Ok(WithTvContact(target.0, target.1, c, userId))
  }

  /**
   * Importing a TV-planner contact keeps the store's constraints and at
   * most one contact per (advertiser, email), and importing it again
   * changes nothing.
   */
  lemma TvContactImportProperties(db: DB, c: TvContact, userId: nat)
    requires db.Valid() && TvContactImported(db, c, userId).Ok?
    ensures
      var r := TvContactImported(db, c, userId).db;
      && r.Valid()
      && (StrTruthy(c.email) && OnePerAdvertiser(db.contacts, c.email.value) ==> OnePerAdvertiser(r.contacts, c.email.value))
      && TvContactImported(r, c, userId) == Ok(r)
  {
    if StrTruthy(c.email) {
      var (d, id) := TvAdvertiser(db, c.company).value;
      TvAdvertiserStable(db, c.company);
      WithTvContactValid(d, id, c, userId);
      var r := WithTvContact(d, id, c, userId);
      TvAdvertiserIgnoresContacts(d, r, c.company);
      assert WithTvContact(r, id, c, userId) == r;
    }
  }

  /** The advertiser lookup reads only the advertisers: a store found as is stays found under another contact table. */
  lemma TvAdvertiserIgnoresContacts(d: DB, r: DB, company: Field)
    requires r == d.(contacts := r.contacts)
    requires TvAdvertiser(d, company).Some? && TvAdvertiser(d, company).value.0 == d
    ensures TvAdvertiser(r, company) == Some((r, TvAdvertiser(d, company).value.1))
  {
  }

  /** Filing a contact under a stored advertiser keeps the store's constraints. */
  lemma WithTvContactValid(db: DB, id: nat, c: TvContact, userId: nat)
    requires db.Valid() && id in Ids(db.advertisers) && c.email.Some?
    ensures WithTvContact(db, id, c, userId).Valid()
  {
    var r := WithTvContact(db, id, c, userId);
    forall k | 0 <= k < |r.contacts| && r.contacts[k].advertiserId.Some?
      ensures r.contacts[k].advertiserId.value in Ids(r.advertisers)
    {
      if k < |db.contacts| {
        assert r.contacts[k] == db.contacts[k];
      }
    }
  }

  // ---------------------------------------------------------------------
  // Invoices and status updates
  // ---------------------------------------------------------------------

  /** The text an earlier import of the same invoice left in its note. */
  function InvoiceMarker(p: InvoicePayload): string
  {
    "Invoice: " + p.invoiceDateText
  }

  function InvoiceImportNote(advertiserId: nat, userId: nat, p: InvoicePayload): (a: Activity)
    ensures a.advertiserId == advertiserId && a.activityType == "note"
    ensures Contains(a.description, InvoiceMarker(p))
  {
    var m := InvoiceMarker(p);
    var d := m + " - Amount: " + p.totalAmountText + " EUR";
    PrefixContained(d, m);
    Note(advertiserId, userId, d, Some("Invoice from Agency CRM"))
  }

  /** A note of advertiser `id` that records the invoice with marker `m`. */
  predicate Records(a: Activity, id: nat, m: string)
  {
    a.advertiserId == id && a.activityType == "note" && Contains(a.description, m)
  }

  /** The first note of advertiser `id` recording marker `m`, if any. */
  function RecordedAt(acts: seq<Activity>, id: nat, m: string): (r: Option<nat>)
    ensures r.Some? ==> r.value < |acts| && Records(acts[r.value], id, m)
    ensures r.None? <==> forall k :: 0 <= k < |acts| ==> !Records(acts[k], id, m)
  {
    First(acts, (a: Activity) => Records(a, id, m))
  }

  /** `create_invoice_activity_sync`: one note per (advertiser, invoice date), on the resolved advertiser. */
  function InvoiceImported(db: DB, p: InvoicePayload, userId: nat): (r: DB)
    ensures r.advertisers == db.advertisers && r.contacts == db.contacts && r.spending == db.spending
    ensures db.activities <= r.activities && |r.activities| <= |db.activities| + 1
    ensures db.Valid() ==> r.Valid()
  {
    match ResolveId(db.advertisers, p.brandName.GetOr(Some("")))
    case None => db
    case Some(id) =>
      ResolvedIdStored(db.advertisers, p.brandName.GetOr(Some("")));
      if RecordedAt(db.activities, id, InvoiceMarker(p)).Some? then db
      else db.(activities := db.activities + [InvoiceImportNote(id, userId, p)])
  }

  /**
   * After an invoice import the resolved advertiser has a note recording
   * the invoice date, a note is added only when there was none, and
   * importing the same invoice again changes nothing.
   */
  lemma InvoiceImportOnce(db: DB, p: InvoicePayload, userId: nat)
    ensures
      var r := InvoiceImported(db, p, userId);
      var id := ResolveId(db.advertisers, p.brandName.GetOr(Some("")));
      && (id.None? ==> r == db)
      && (id.Some? ==> RecordedAt(r.activities, id.value, InvoiceMarker(p)).Some?)
      && (id.Some? ==> (|r.activities| == |db.activities| + 1 <==> RecordedAt(db.activities, id.value, InvoiceMarker(p)).None?))
      && InvoiceImported(r, p, userId) == r
  {
    var r := InvoiceImported(db, p, userId);
    var id := ResolveId(db.advertisers, p.brandName.GetOr(Some("")));
    if id.Some? {
      var m := InvoiceMarker(p);
      if RecordedAt(db.activities, id.value, m).Some? {
        var j := RecordedAt(db.activities, id.value, m).value;
        assert Records(r.activities[j], id.value, m);
      } else {
        assert Records(r.activities[|db.activities|], id.value, m);
      }
    }
  }

  /** `create_status_activity_sync`: a status note by `userId` on the resolved advertiser. */
  function StatusImported(db: DB, p: StatusUpdatePayload, userId: nat): (r: DB)
    ensures r.advertisers == db.advertisers && r.contacts == db.contacts && r.spending == db.spending
    ensures db.Valid() ==> r.Valid()
  {
    match ResolveId(db.advertisers, p.brandName.GetOr(Some("")))
    case None => db
    case Some(id) =>
      ResolvedIdStored(db.advertisers, p.brandName.GetOr(Some("")));
      db.(activities := db.activities + [StatusNote(id, p).(userId := userId)])
  }

  /** The initial import writes the same status note as the status-update webhook, save for its author. */
  lemma StatusImportMatchesWebhook(db: DB, p: StatusUpdatePayload)
    ensures StatusImported(db, p, SystemUser) == StatusUpdateLogged(db, p)
  {
    match ResolveId(db.advertisers, p.brandName.GetOr(Some("")))
    case None =>
    case Some(id) =>
      assert StatusNote(id, p).(userId := SystemUser) == StatusNote(id, p);
  }

  // ---------------------------------------------------------------------
  // TV-planner campaigns
  // ---------------------------------------------------------------------

  /** `campaign_name.split('-')[0].strip()` when the name is non-empty, "" otherwise (null included). */
  function CampaignKey(p: CampaignPayload): string
  {
    if p.name.Truthy() then NameKey(p.name.s) else ""
  }

  function MaxReal(a: real, b: real): (m: real)
    ensures m >= a && m >= b && (m == a || m == b)
  {
    if a >= b then a else b
  }

  /** `spending.tv or 0` for the (advertiser, year) row; a new row starts at 0. */
  function CurrentTv(rows: seq<SpendingData>, advertiserId: nat, year: int): real
  {
    match SpendingRow(rows, advertiserId, year)
    case None => EmptySpending(advertiserId, year).tv
    case Some(k) => rows[k].tv
  }

  /** Get or create the (advertiser, year) row and raise its `tv` to `total` when `total` is positive. */
  function RaisedTv(rows: seq<SpendingData>, advertiserId: nat, year: int, total: real): (r: seq<SpendingData>)
    ensures SpendingRow(r, advertiserId, year).Some?
    ensures r[SpendingRow(r, advertiserId, year).value].tv
              == if total > 0.0 then MaxReal(CurrentTv(rows, advertiserId, year), total) else CurrentTv(rows, advertiserId, year)
    ensures SpendingUnique(rows) ==> SpendingUnique(r)
  {
    var cur := CurrentTv(rows, advertiserId, year);
    SetTv(rows, advertiserId, year, if total > 0.0 then MaxReal(cur, total) else cur)
  }

  /** No row loses `tv`: every (advertiser, year) row is still there with at least its old figure. */
  lemma RaisedTvNeverLowers(rows: seq<SpendingData>, advertiserId: nat, year: int, total: real)
    requires SpendingUnique(rows)
    ensures
      var r := RaisedTv(rows, advertiserId, year, total);
      forall k :: 0 <= k < |rows| ==> exists j :: 0 <= j < |r| && r[j].advertiserId == rows[k].advertiserId
                                                && r[j].year == rows[k].year && r[j].tv >= rows[k].tv
    ensures
      var r := RaisedTv(rows, advertiserId, year, total);
      total > 0.0 ==> r[SpendingRow(r, advertiserId, year).value].tv >= total
  {
    var r := RaisedTv(rows, advertiserId, year, total);
    forall k | 0 <= k < |rows|
      ensures exists j :: 0 <= j < |r| && r[j].advertiserId == rows[k].advertiserId && r[j].year == rows[k].year && r[j].tv >= rows[k].tv
    {
      if rows[k].advertiserId != advertiserId || rows[k].year != year {
        var j :| 0 <= j < |r| && r[j] == rows[k];
      } else {
        var j := SpendingRow(r, advertiserId, year).value;
        assert SpendingRow(rows, advertiserId, year) == Some(k);
        assert r[j].tv >= rows[k].tv;
      }
    }
  }

  /** Raising with the same total twice is raising it once. */
  lemma RaisedTvTwice(rows: seq<SpendingData>, advertiserId: nat, year: int, total: real)
    requires SpendingUnique(rows)
    ensures RaisedTv(RaisedTv(rows, advertiserId, year, total), advertiserId, year, total) == RaisedTv(rows, advertiserId, year, total)
  {
    var r := RaisedTv(rows, advertiserId, year, total);
    var j := SpendingRow(r, advertiserId, year).value;
    assert r[j := r[j].(tv := r[j].tv)] == r;
  }

  function CampaignImportNote(advertiserId: nat, userId: nat, name: string, total: Amount): Activity
  {
    Note(advertiserId, userId, "Initial sync: TV Campaign '" + name + "'",
         Some(if total.value != 0.0 then "Spending: " + total.text + " EUR" else "Campaign data synchronized"))
  }

  /** The advertiser a campaign key resolves to, created as a warm "TV Planner Client" when none contains it. */
  function CampaignAdvertiser(db: DB, key: string): (r: (DB, nat))
    ensures db.Valid() ==> r.0.Valid() && r.1 in Ids(r.0.advertisers)
    ensures r.0.contacts == db.contacts && r.0.activities == db.activities && r.0.spending == db.spending
    ensures db.advertisers <= r.0.advertisers && |r.0.advertisers| <= |db.advertisers| + 1
  {
    match ResolveId(db.advertisers, Some(key))
    case Some(id) =>
      ResolvedIdStored(db.advertisers, Some(key));
      (db, id)
    case None =>
      ContainsItself(key);
      var d := db.WithAdvertiser(key, Some(TvPlannerClient), Warm);
      IdAt(d.advertisers, |db.advertisers|);
      (d, db.nextAdvertiserId)
  }

  /** Once created, the campaign's advertiser is the one its key resolves to. */
  lemma CampaignAdvertiserStable(db: DB, key: string)
    ensures CampaignAdvertiser(CampaignAdvertiser(db, key).0, key).1 == CampaignAdvertiser(db, key).1
    ensures CampaignAdvertiser(CampaignAdvertiser(db, key).0, key).0 == CampaignAdvertiser(db, key).0
  {
    if ResolveId(db.advertisers, Some(key)).None? {
      var d := CampaignAdvertiser(db, key).0;
      var n := |db.advertisers|;
      ContainsItself(key);
      assert Contains(d.advertisers[n].name, key);
      FirstIsUnique(d.advertisers, (a: Advertiser) => Contains(a.name, key), n);
    }
  }

  /** `sync_campaign_spending_data`, with the current year as a parameter. */
  function CampaignImported(db: DB, p: CampaignPayload, userId: nat, year: int): (r: DB)
    ensures CampaignKey(p) == "" ==> r == db
    ensures CampaignKey(p) != "" ==> |r.activities| == |db.activities| + 1 && db.activities <= r.activities
    ensures r.contacts == db.contacts
  {
    var key := CampaignKey(p);
    if key == "" then db
    else
      var target := CampaignAdvertiser(db, key);
      CampaignApplied(target.0, target.1, p.name.s, TotalSpending(p), userId, year)
  }

  /** The campaign's effect once its advertiser `id` is known: raise the current-year `tv`, log one note. */
  function CampaignApplied(d: DB, id: nat, name: string, total: Amount, userId: nat, year: int): (r: DB)
    ensures r.advertisers == d.advertisers && r.contacts == d.contacts
    ensures r.activities == d.activities + [CampaignImportNote(id, userId, name, total)]
  {
    d.(spending := RaisedTv(d.spending, id, year, total.value),
       activities := d.activities + [CampaignImportNote(id, userId, name, total)])
  }

  /** A campaign import keeps the store's constraints. */
  lemma CampaignImportValid(db: DB, p: CampaignPayload, userId: nat, year: int)
    requires db.Valid()
    ensures CampaignImported(db, p, userId, year).Valid()
  {
    var key := CampaignKey(p);
    if key != "" {
      var target := CampaignAdvertiser(db, key);
      var d := target.0;
      var id := target.1;
      var total := TotalSpending(p);
      var cur := CurrentTv(d.spending, id, year);
      var note := CampaignImportNote(id, userId, p.name.s, total);
      assert CampaignImported(db, p, userId, year)
          == d.(spending := SetTv(d.spending, id, year, if total.value > 0.0 then MaxReal(cur, total.value) else cur),
                activities := d.activities + [note]);
      SetTvKeepsValid(d, id, year, if total.value > 0.0 then MaxReal(cur, total.value) else cur, note);
    }
  }

  /**
   * A campaign import never lowers a `tv` figure and leaves the campaign's
   * current-year row at no less than a positive total.
   */
  lemma CampaignImportRaisesTv(db: DB, p: CampaignPayload, userId: nat, year: int)
    requires db.Valid() && CampaignKey(p) != ""
    ensures
      var r := CampaignImported(db, p, userId, year);
      var id := CampaignAdvertiser(db, CampaignKey(p)).1;
      && (forall k :: 0 <= k < |db.spending| ==>
            exists j :: 0 <= j < |r.spending| && r.spending[j].advertiserId == db.spending[k].advertiserId
                        && r.spending[j].year == db.spending[k].year && r.spending[j].tv >= db.spending[k].tv)
      && SpendingRow(r.spending, id, year).Some?
      && (TotalSpending(p).value > 0.0 ==> r.spending[SpendingRow(r.spending, id, year).value].tv >= TotalSpending(p).value)
  {
    var target := CampaignAdvertiser(db, CampaignKey(p));
    var total := TotalSpending(p);
    assert CampaignImported(db, p, userId, year) == CampaignApplied(target.0, target.1, p.name.s, total, userId, year);
    RaisedTvNeverLowers(db.spending, target.1, year, total.value);
  }

  /** Importing the same campaign twice leaves the spending rows as importing it once. */
  lemma CampaignImportTwice(db: DB, p: CampaignPayload, userId: nat, year: int)
    requires db.Valid()
    ensures CampaignImported(CampaignImported(db, p, userId, year), p, userId, year).spending
            == CampaignImported(db, p, userId, year).spending
  {
    var key := CampaignKey(p);
    if key != "" {
      var (d, id) := CampaignAdvertiser(db, key);
      var total := TotalSpending(p);
      CampaignAdvertiserStable(db, key);
      var r := CampaignApplied(d, id, p.name.s, total, userId, year);
      assert CampaignImported(db, p, userId, year) == r;
      CampaignAdvertiserIgnoresTables(d, r, key);
      assert CampaignImported(r, p, userId, year) == CampaignApplied(r, id, p.name.s, total, userId, year);
      RaisedTvTwice(d.spending, id, year, total.value);
    }
  }

  /** The campaign's advertiser lookup reads only the advertisers: a store found as is stays found whatever its other tables hold. */
  lemma CampaignAdvertiserIgnoresTables(d: DB, r: DB, key: string)
    requires r.advertisers == d.advertisers && r.nextAdvertiserId == d.nextAdvertiserId
    requires CampaignAdvertiser(d, key).0 == d
    ensures CampaignAdvertiser(r, key) == (r, CampaignAdvertiser(d, key).1)
  {
  }

  // ---------------------------------------------------------------------
  // Feeds and the whole run
  // ---------------------------------------------------------------------

  /** One GET of a feed: the decoded items, a status other than 200, or an exception (no connection, bad JSON). */
  datatype Fetch<T> = Got(items: seq<T>) | BadStatus(code: int) | RequestFailed(message: string)

  /**
   * Where a run stands: still reading the current source, stopped by a
   * request exception (the rest of that source is skipped), or failed at
   * a flush (the session is rolled back and nothing is committed).
   */
  datatype Progress = Running(db: DB) | Stopped(db: DB) | Failed(error: string)

  /** The loop over one feed's items; the first raise ends it. */
  function Steps<T>(db: DB, items: seq<T>, step: (DB, T) -> Outcome): Outcome
    decreases |items|
  {
    if items == [] then Ok(db)
    else
      match step(db, items[0])
      case Raised(e) => Raised(e)
      case Ok(d) => Steps(d, items[1..], step)
  }

  /** A loop of steps that keep the store's constraints keeps them. */
  lemma {:induction false} StepsValid<T>(db: DB, items: seq<T>, step: (DB, T) -> Outcome)
    requires db.Valid()
    requires forall d: DB, x: T :: d.Valid() && step(d, x).Ok? ==> step(d, x).db.Valid()
    ensures Steps(db, items, step).Ok? ==> Steps(db, items, step).db.Valid()
    decreases |items|
  {
    if items != [] && step(db, items[0]).Ok? {
      StepsValid(step(db, items[0]).db, items[1..], step);
    }
  }

  /** The loop from position `i` on is one step, then the loop from `i + 1`. */
  lemma StepsAt<T>(db: DB, items: seq<T>, i: nat, step: (DB, T) -> Outcome)
    requires i < |items|
    ensures Steps(db, items[i..], step) == match step(db, items[i])
                                            case Raised(e) => Raised(e)
                                            case Ok(d) => Steps(d, items[i + 1..], step)
  {
    assert items[i..][1..] == items[i + 1..];
  }

  /** One feed of a source: read it and loop over its items, unless the source has already stopped. */
  function Pull<T>(s: Progress, f: Fetch<T>, step: (DB, T) -> Outcome): Progress
  {
    match s
    case Running(db) =>
      (match f
       case Got(items) =>
         (match Steps(db, items, step)
          case Ok(d) => Running(d)
          case Raised(e) => Failed(e))
       case BadStatus(_) => s
       case RequestFailed(_) => Stopped(db))
    case _ => s
  }

  /** The store of a run that has not failed meets the constraints. */
  ghost predicate Sound(s: Progress)
  {
    !s.Failed? ==> s.db.Valid()
  }

  lemma PullSound<T>(s: Progress, f: Fetch<T>, step: (DB, T) -> Outcome)
    requires Sound(s)
    requires forall d: DB, x: T :: d.Valid() && step(d, x).Ok? ==> step(d, x).db.Valid()
    ensures Sound(Pull(s, f, step))
  {
    if s.Running? && f.Got? {
      StepsValid(s.db, f.items, step);
    }
  }

  function CompanyStep(userId: nat): (DB, CrmCompany) -> Outcome
  {
    (d: DB, c: CrmCompany) => Ok(CompanyImported(d, c, userId))
  }

  function BrandStep(userId: nat): (DB, CrmBrand) -> Outcome
  {
    (d: DB, b: CrmBrand) => Ok(BrandImported(d, b, userId))
  }

  function CrmContactStep(userId: nat): (DB, CrmContact) -> Outcome
  {
    (d: DB, c: CrmContact) => CrmContactImported(d, c, userId)
  }

  function InvoiceStep(userId: nat): (DB, InvoicePayload) -> Outcome
  {
    (d: DB, p: InvoicePayload) => Ok(InvoiceImported(d, p, userId))
  }

  function StatusStep(userId: nat): (DB, StatusUpdatePayload) -> Outcome
  {
    (d: DB, p: StatusUpdatePayload) => Ok(StatusImported(d, p, userId))
  }

  function CampaignStep(userId: nat, year: int): (DB, CampaignPayload) -> Outcome
  {
    (d: DB, p: CampaignPayload) => Ok(CampaignImported(d, p, userId, year))
  }

  function TvContactStep(userId: nat): (DB, TvContact) -> Outcome
  {
    (d: DB, c: TvContact) => TvContactImported(d, c, userId)
  }

  /** How many invoices of the feed are imported. */
  const InvoiceLimit: nat := 50

  /** `invoices[:50]` */
  function Capped(f: Fetch<InvoicePayload>): (r: Fetch<InvoicePayload>)
    ensures !f.Got? ==> r == f
    ensures f.Got? ==> r.Got? && r.items <= f.items && |r.items| <= InvoiceLimit
    ensures f.Got? && |f.items| <= InvoiceLimit ==> r == f
  {
    match f
    case Got(items) => Got(if |items| <= InvoiceLimit then items else items[..InvoiceLimit])
    case _ => f
  }

  /** The five feeds of the agency CRM, in the order they are read. */
  datatype AgencyFeeds = AgencyFeeds(
    companies: Fetch<CrmCompany>,
    brands: Fetch<CrmBrand>,
    contacts: Fetch<CrmContact>,
    invoices: Fetch<InvoicePayload>,
    updates: Fetch<StatusUpdatePayload>)

  /** The two feeds of the TV planner; each campaign already carries its spending figures. */
  datatype TvFeeds = TvFeeds(campaigns: Fetch<CampaignPayload>, contacts: Fetch<TvContact>)

  /** `sync_all_from_agency_crm` */
  function AgencyCrmPulled(db: DB, userId: nat, f: AgencyFeeds): Progress
  {
    var s1 := Pull(Running(db), f.companies, CompanyStep(userId));
    var s2 := Pull(s1, f.brands, BrandStep(userId));
    var s3 := Pull(s2, f.contacts, CrmContactStep(userId));
    var s4 := Pull(s3, Capped(f.invoices), InvoiceStep(userId));
    Pull(s4, f.updates, StatusStep(userId))
  }

  /** `sync_all_from_tv_planner`, with the current year as a parameter. */
  function TvPlannerPulled(db: DB, userId: nat, year: int, f: TvFeeds): Progress
  {
    Pull(Pull(Running(db), f.campaigns, CampaignStep(userId, year)), f.contacts, TvContactStep(userId))
  }

  /** `main`: both sources into one session, then one commit; a failed flush loses the whole run. */
  function InitialSyncRun(db: DB, userId: nat, year: int, a: AgencyFeeds, t: TvFeeds): Outcome
  {
    match AgencyCrmPulled(db, userId, a)
    case Failed(e) => Raised(e)
    case s =>
      match TvPlannerPulled(s.db, userId, year, t)
      case Failed(e) => Raised(e)
      case s2 => Ok(s2.db)
  }

  /** Every import step keeps the store's constraints. */
  lemma StepsKeepConstraints(userId: nat, year: int)
    ensures forall d: DB, x: CrmCompany :: d.Valid() && CompanyStep(userId)(d, x).Ok? ==> CompanyStep(userId)(d, x).db.Valid()
    ensures forall d: DB, x: CrmBrand :: d.Valid() && BrandStep(userId)(d, x).Ok? ==> BrandStep(userId)(d, x).db.Valid()
    ensures forall d: DB, x: CrmContact :: d.Valid() && CrmContactStep(userId)(d, x).Ok? ==> CrmContactStep(userId)(d, x).db.Valid()
    ensures forall d: DB, x: InvoicePayload :: d.Valid() && InvoiceStep(userId)(d, x).Ok? ==> InvoiceStep(userId)(d, x).db.Valid()
    ensures forall d: DB, x: StatusUpdatePayload :: d.Valid() && StatusStep(userId)(d, x).Ok? ==> StatusStep(userId)(d, x).db.Valid()
    ensures forall d: DB, x: CampaignPayload :: d.Valid() && CampaignStep(userId, year)(d, x).Ok? ==> CampaignStep(userId, year)(d, x).db.Valid()
    ensures forall d: DB, x: TvContact :: d.Valid() && TvContactStep(userId)(d, x).Ok? ==> TvContactStep(userId)(d, x).db.Valid()
  {
    forall d: DB, x: CrmCompany | d.Valid() ensures CompanyImported(d, x, userId).Valid() {
      CompanyImportUpserts(d, x, userId);
    }
    forall d: DB, x: CrmContact | d.Valid() && CrmContactImported(d, x, userId).Ok?
      ensures CrmContactImported(d, x, userId).db.Valid()
    {
      if StrTruthy(x.email) { CrmContactImportProperties(d, x, userId); }
    }
    forall d: DB, x: CampaignPayload | d.Valid() ensures CampaignImported(d, x, userId, year).Valid() {
      CampaignImportValid(d, x, userId, year);
    }
    forall d: DB, x: TvContact | d.Valid() && TvContactImported(d, x, userId).Ok?
      ensures TvContactImported(d, x, userId).db.Valid()
    {
      TvContactImportProperties(d, x, userId);
    }
  }

  /** A committed initial run leaves the store meeting its constraints. */
  lemma InitialSyncValid(db: DB, userId: nat, year: int, a: AgencyFeeds, t: TvFeeds)
    requires db.Valid() && InitialSyncRun(db, userId, year, a, t).Ok?
    ensures InitialSyncRun(db, userId, year, a, t).db.Valid()
  {
    StepsKeepConstraints(userId, year);
    var s1 := Pull(Running(db), a.companies, CompanyStep(userId));
    PullSound(Running(db), a.companies, CompanyStep(userId));
    var s2 := Pull(s1, a.brands, BrandStep(userId));
    PullSound(s1, a.brands, BrandStep(userId));
    var s3 := Pull(s2, a.contacts, CrmContactStep(userId));
    PullSound(s2, a.contacts, CrmContactStep(userId));
    var s4 := Pull(s3, Capped(a.invoices), InvoiceStep(userId));
    PullSound(s3, Capped(a.invoices), InvoiceStep(userId));
    var s5 := Pull(s4, a.updates, StatusStep(userId));
    PullSound(s4, a.updates, StatusStep(userId));
    var t1 := Pull(Running(s5.db), t.campaigns, CampaignStep(userId, year));
    PullSound(Running(s5.db), t.campaigns, CampaignStep(userId, year));
    PullSound(t1, t.contacts, TvContactStep(userId));
  }

  /** Invoices past the fiftieth of the feed have no effect on the run. */
  lemma LateInvoicesIgnored(db: DB, userId: nat, year: int, a: AgencyFeeds, t: TvFeeds, items: seq<InvoicePayload>)
    requires a.invoices == Got(items) && |items| > InvoiceLimit
    ensures InitialSyncRun(db, userId, year, a, t)
            == InitialSyncRun(db, userId, year, a.(invoices := Got(items[..InvoiceLimit])), t)
  {
    assert Capped(a.invoices) == Capped(Got(items[..InvoiceLimit]));
  }

  // ---------------------------------------------------------------------
  // The import, carried out on the session in place
  // ---------------------------------------------------------------------

  /** `sync_company_to_advertiser` */
  method SyncCompanyToAdvertiser(store: Store, c: CrmCompany, userId: nat)
    requires store.Valid()
    modifies store
    ensures store.Valid()
    ensures store.Value() == CompanyImported(old(store.Value()), c, userId)
  {
    ghost var before := store.Value();
    CompanyImportUpserts(before, c, userId);
    var found := ByName(store.advertisers, c.name);
    if found.None? {
      var id := store.AddAdvertiser(c.name, Some(OurAgency), Ours);
      store.AddActivity(CompanyImportNote(id, userId, c.idText));
    } else {
      var k := found.value;
      store.advertisers := store.advertisers[k := store.advertisers[k].(leadStatus := Ours)];
    }
  }

  /** `sync_brand_to_advertiser` */
  method SyncBrandToAdvertiser(store: Store, b: CrmBrand, userId: nat)
    requires store.Valid()
    modifies store
    ensures store.Valid()
    ensures store.Value() == BrandImported(old(store.Value()), b, userId)
  {
    var name := CrmBrandName(b);
    var found := ByName(store.advertisers, name);
    if found.None? {
      var id := store.AddAdvertiser(name, Some(OurAgency), Ours);
      store.AddActivity(BrandImportNote(id, userId, b.idText));
    }
  }

  /** The brand loop of `sync_contact_from_crm`: the contacts once each brand has been visited. */
  method CollectBrandContacts(advs: seq<Advertiser>, contacts: seq<Contact>, brands: seq<string>, t: Contact)
    returns (added: seq<Contact>)
    requires t.email.Some?
    ensures added == AddedPerBrand(advs, contacts, brands, t)
  {
    added := contacts;
    var i := 0;
    while i < |brands|
      invariant 0 <= i <= |brands|
      invariant added == AddedPerBrand(advs, contacts, brands[..i], t)
    {
      var id := ResolveId(advs, Some(brands[i]));
      if id.Some? && ContactAt(added, id.value, t.email.value).None? {
        added := added + [t.(advertiserId := id)];
      }
      assert brands[..i + 1][..i] == brands[..i];
      i := i + 1;
    }
    assert brands[..|brands|] == brands;
  }

  /** `sync_contact_from_crm`; `ok` is false when the new rows cannot be flushed. */
  method SyncContactFromCrm(store: Store, c: CrmContact, userId: nat) returns (ok: bool)
    requires store.Valid()
    modifies store
    ensures store.Valid()
    ensures ok == CrmContactImported(old(store.Value()), c, userId).Ok?
    ensures store.Value() == if ok then CrmContactImported(old(store.Value()), c, userId).db else old(store.Value())
  {
    if !(c.email.Some? && c.email.value != "") {
      return true;
    }
    var t := CrmContactTemplate(c, userId);
    var added := CollectBrandContacts(store.advertisers, store.contacts, c.brands, t);
    if |added| > |store.contacts| && (c.firstName.Null? || c.lastName.Null?) {
      return false;
    }
    CrmContactImportProperties(store.Value(), c, userId);
    store.contacts := added;
    ok := true;
  }

  /**
   * The advertiser lookup of `sync_contact_from_tv`: by company, else by the
   * exact fallback name, else a new cold "Potential Client"; None where the
   * fallback name is null and the flush fails.
   */
  method FindOrCreateTvAdvertiser(store: Store, company: Field) returns (found: Option<nat>)
    requires store.Valid()
    modifies store
    ensures store.Valid()
    ensures found.None? ==> store.Value() == old(store.Value())
    ensures found == if TvAdvertiser(old(store.Value()), company).Some? then Some(TvAdvertiser(old(store.Value()), company).value.1) else None
    ensures found.Some? ==> store.Value() == TvAdvertiser(old(store.Value()), company).value.0
  {
    found := None;
    if company.Str? && company.s != "" {
      found := ResolveId(store.advertisers, Some(company.s));
    }
    if found.None? {
      var name := company.GetOr(Some(TvPlannerContact));
      if name.None? {
        return None;
      }
      var k := ByName(store.advertisers, name.value);
      if k.Some? {
        found := Some(store.advertisers[k.value].id);
      } else {
        var id := store.AddAdvertiser(name.value, Some(PotentialClient), Cold);
        found := Some(id);
      }
    }
  }

  /** `sync_contact_from_tv`; `ok` is false when the fallback advertiser's name is null. */
  method SyncContactFromTv(store: Store, c: TvContact, userId: nat) returns (ok: bool)
    requires store.Valid()
    modifies store
    ensures store.Valid()
    ensures ok == TvContactImported(old(store.Value()), c, userId).Ok?
    ensures store.Value() == if ok then TvContactImported(old(store.Value()), c, userId).db else old(store.Value())
  {
    if !(c.email.Some? && c.email.value != "") {
      return true;
    }
    var found := FindOrCreateTvAdvertiser(store, c.company);
    if found.None? {
      return false;
    }
    var id := found.value;
    if ContactAt(store.contacts, id, c.email.value).None? {
      store.AddContact(Contact(Some(id), None, TvFirstName(c.name), TvLastName(c.name), c.email, c.phone, None, userId));
    }
    ok := true;
  }

  /** `create_invoice_activity_sync` */
  method CreateInvoiceActivitySync(store: Store, p: InvoicePayload, userId: nat)
    requires store.Valid()
    modifies store
    ensures store.Valid()
    ensures store.Value() == InvoiceImported(old(store.Value()), p, userId)
  {
    var id := ResolveId(store.advertisers, p.brandName.GetOr(Some("")));
    if id.Some? {
      var existing := RecordedAt(store.activities, id.value, InvoiceMarker(p));
      if existing.None? {
        ResolvedIdStored(store.advertisers, p.brandName.GetOr(Some("")));
        store.AddActivity(InvoiceImportNote(id.value, userId, p));
      }
    }
  }

  /** `create_status_activity_sync` */
  method CreateStatusActivitySync(store: Store, p: StatusUpdatePayload, userId: nat)
    requires store.Valid()
    modifies store
    ensures store.Valid()
    ensures store.Value() == StatusImported(old(store.Value()), p, userId)
  {
    var id := ResolveId(store.advertisers, p.brandName.GetOr(Some("")));
    if id.Some? {
      ResolvedIdStored(store.advertisers, p.brandName.GetOr(Some("")));
      store.AddActivity(StatusNote(id.value, p).(userId := userId));
    }
  }

  /** `sync_campaign_spending_data`, with the current year as a parameter. */
  method SyncCampaignSpendingData(store: Store, p: CampaignPayload, userId: nat, year: int)
    requires store.Valid()
    modifies store
    ensures store.Valid()
    ensures store.Value() == CampaignImported(old(store.Value()), p, userId, year)
  {
    ghost var before := store.Value();
    CampaignImportValid(before, p, userId, year);
    var key := if p.name.Str? && p.name.s != "" then NameKey(p.name.s) else "";
    assert key == CampaignKey(p);
    if key == "" {
      return;
    }
    var id := FindOrCreateCampaignAdvertiser(store, key);
    ApplyCampaign(store, id, p.name.s, TotalSpending(p), userId, year);
  }

  /** The end of `sync_campaign_spending_data`: update the spending row, then add the note. */
  method ApplyCampaign(store: Store, id: nat, name: string, total: Amount, userId: nat, year: int)
    modifies store
    ensures store.Value() == CampaignApplied(old(store.Value()), id, name, total, userId, year)
  {
    var rows := UpdateTv(store.spending, id, year, total.value);
    store.spending, store.activities := rows, store.activities + [CampaignImportNote(id, userId, name, total)];
  }

  /** The advertiser lookup of `sync_campaign_spending_data`, creating a warm "TV Planner Client" if none matches. */
  method FindOrCreateCampaignAdvertiser(store: Store, key: string) returns (id: nat)
    requires store.Valid()
    modifies store
    ensures store.Valid()
    ensures (store.Value(), id) == CampaignAdvertiser(old(store.Value()), key)
  {
    var found := ResolveId(store.advertisers, Some(key));
    if found.Some? {
      id := found.value;
    } else {
      ContainsItself(key);
      id := store.AddAdvertiser(key, Some(TvPlannerClient), Warm);
    }
  }

  /** Get or create the (advertiser, year) row, then `spending.tv = max(spending.tv or 0, total)` if `total > 0`. */
  method UpdateTv(rows: seq<SpendingData>, advertiserId: nat, year: int, total: real) returns (r: seq<SpendingData>)
    ensures r == RaisedTv(rows, advertiserId, year, total)
  {
    r := rows;
    var row := SpendingRow(r, advertiserId, year);
    if row.None? {
      r := r + [EmptySpending(advertiserId, year)];
      row := Some(|r| - 1);
      FirstIsUnique(r, (s: SpendingData) => s.advertiserId == advertiserId && s.year == year, |rows|);
    }
    var k := row.value;
    if total > 0.0 {
      r := r[k := r[k].(tv := MaxReal(r[k].tv, total))];
    }
  }

  /** The loop over the companies feed. */
  method PullCompanies(store: Store, f: Fetch<CrmCompany>, userId: nat) returns (s: Progress)
    requires store.Valid()
    modifies store
    ensures store.Valid()
    ensures s == Pull(Running(old(store.Value())), f, CompanyStep(userId))
    ensures !s.Failed? ==> store.Value() == s.db
  {
    match f
    case BadStatus(_) => s := Running(store.Value());
    case RequestFailed(_) => s := Stopped(store.Value());
    case Got(items) =>
      ghost var start := store.Value();
      assert items[0..] == items;
      var i := 0;
      while i < |items|
        invariant 0 <= i <= |items| && store.Valid()
        invariant Steps(store.Value(), items[i..], CompanyStep(userId)) == Steps(start, items, CompanyStep(userId))
      {
        StepsAt(store.Value(), items, i, CompanyStep(userId));
        SyncCompanyToAdvertiser(store, items[i], userId);
        i := i + 1;
      }
      assert items[i..] == [];
      s := Running(store.Value());
  }

  /** The loop over the brands feed. */
  method PullBrands(store: Store, f: Fetch<CrmBrand>, userId: nat) returns (s: Progress)
    requires store.Valid()
    modifies store
    ensures store.Valid()
    ensures s == Pull(Running(old(store.Value())), f, BrandStep(userId))
    ensures !s.Failed? ==> store.Value() == s.db
  {
    match f
    case BadStatus(_) => s := Running(store.Value());
    case RequestFailed(_) => s := Stopped(store.Value());
    case Got(items) =>
      ghost var start := store.Value();
      assert items[0..] == items;
      var i := 0;
      while i < |items|
        invariant 0 <= i <= |items| && store.Valid()
        invariant Steps(store.Value(), items[i..], BrandStep(userId)) == Steps(start, items, BrandStep(userId))
      {
        StepsAt(store.Value(), items, i, BrandStep(userId));
        SyncBrandToAdvertiser(store, items[i], userId);
        i := i + 1;
      }
      assert items[i..] == [];
      s := Running(store.Value());
  }

  /** The loop over the agency CRM's contacts feed; a failed flush ends the run. */
  method PullCrmContacts(store: Store, f: Fetch<CrmContact>, userId: nat) returns (s: Progress)
    requires store.Valid()
    modifies store
    ensures store.Valid()
    ensures s == Pull(Running(old(store.Value())), f, CrmContactStep(userId))
    ensures !s.Failed? ==> store.Value() == s.db
  {
    match f
    case BadStatus(_) => s := Running(store.Value());
    case RequestFailed(_) => s := Stopped(store.Value());
    case Got(items) =>
      ghost var start := store.Value();
      assert items[0..] == items;
      var i := 0;
      while i < |items|
        invariant 0 <= i <= |items| && store.Valid()
        invariant Steps(store.Value(), items[i..], CrmContactStep(userId)) == Steps(start, items, CrmContactStep(userId))
      {
        StepsAt(store.Value(), items, i, CrmContactStep(userId));
        var ok := SyncContactFromCrm(store, items[i], userId);
        if !ok {
          return Failed(FlushFailed);
        }
        i := i + 1;
      }
      assert items[i..] == [];
      s := Running(store.Value());
  }

  /** The loop over the invoices feed (already cut to its first fifty). */
  method PullInvoices(store: Store, f: Fetch<InvoicePayload>, userId: nat) returns (s: Progress)
    requires store.Valid()
    modifies store
    ensures store.Valid()
    ensures s == Pull(Running(old(store.Value())), f, InvoiceStep(userId))
    ensures !s.Failed? ==> store.Value() == s.db
  {
    match f
    case BadStatus(_) => s := Running(store.Value());
    case RequestFailed(_) => s := Stopped(store.Value());
    case Got(items) =>
      ghost var start := store.Value();
      assert items[0..] == items;
      var i := 0;
      while i < |items|
        invariant 0 <= i <= |items| && store.Valid()
        invariant Steps(store.Value(), items[i..], InvoiceStep(userId)) == Steps(start, items, InvoiceStep(userId))
      {
        StepsAt(store.Value(), items, i, InvoiceStep(userId));
        CreateInvoiceActivitySync(store, items[i], userId);
        i := i + 1;
      }
      assert items[i..] == [];
      s := Running(store.Value());
  }

  /** The loop over the status-updates feed. */
  method PullStatusUpdates(store: Store, f: Fetch<StatusUpdatePayload>, userId: nat) returns (s: Progress)
    requires store.Valid()
    modifies store
    ensures store.Valid()
    ensures s == Pull(Running(old(store.Value())), f, StatusStep(userId))
    ensures !s.Failed? ==> store.Value() == s.db
  {
    match f
    case BadStatus(_) => s := Running(store.Value());
    case RequestFailed(_) => s := Stopped(store.Value());
    case Got(items) =>
      ghost var start := store.Value();
      assert items[0..] == items;
      var i := 0;
      while i < |items|
        invariant 0 <= i <= |items| && store.Valid()
        invariant Steps(store.Value(), items[i..], StatusStep(userId)) == Steps(start, items, StatusStep(userId))
      {
        StepsAt(store.Value(), items, i, StatusStep(userId));
        CreateStatusActivitySync(store, items[i], userId);
        i := i + 1;
      }
      assert items[i..] == [];
      s := Running(store.Value());
  }

  /** The loop over the campaigns feed. */
  method PullCampaigns(store: Store, f: Fetch<CampaignPayload>, userId: nat, year: int) returns (s: Progress)
    requires store.Valid()
    modifies store
    ensures store.Valid()
    ensures s == Pull(Running(old(store.Value())), f, CampaignStep(userId, year))
    ensures !s.Failed? ==> store.Value() == s.db
  {
    match f
    case BadStatus(_) => s := Running(store.Value());
    case RequestFailed(_) => s := Stopped(store.Value());
    case Got(items) =>
      ghost var start := store.Value();
      assert items[0..] == items;
      var i := 0;
      while i < |items|
        invariant 0 <= i <= |items| && store.Valid()
        invariant Steps(store.Value(), items[i..], CampaignStep(userId, year)) == Steps(start, items, CampaignStep(userId, year))
      {
        StepsAt(store.Value(), items, i, CampaignStep(userId, year));
        SyncCampaignSpendingData(store, items[i], userId, year);
        i := i + 1;
      }
      assert items[i..] == [];
      s := Running(store.Value());
  }

  /** The loop over the TV planner's contacts feed; a failed flush ends the run. */
  method PullTvContacts(store: Store, f: Fetch<TvContact>, userId: nat) returns (s: Progress)
    requires store.Valid()
    modifies store
    ensures store.Valid()
    ensures s == Pull(Running(old(store.Value())), f, TvContactStep(userId))
    ensures !s.Failed? ==> store.Value() == s.db
  {
    match f
    case BadStatus(_) => s := Running(store.Value());
    case RequestFailed(_) => s := Stopped(store.Value());
    case Got(items) =>
      ghost var start := store.Value();
      assert items[0..] == items;
      var i := 0;
      while i < |items|
        invariant 0 <= i <= |items| && store.Valid()
        invariant Steps(store.Value(), items[i..], TvContactStep(userId)) == Steps(start, items, TvContactStep(userId))
      {
        StepsAt(store.Value(), items, i, TvContactStep(userId));
        var ok := SyncContactFromTv(store, items[i], userId);
        if !ok {
          return Failed(FlushFailed);
        }
        i := i + 1;
      }
      assert items[i..] == [];
      s := Running(store.Value());
  }

  /** `sync_all_from_agency_crm` */
  method SyncAllFromAgencyCrm(store: Store, userId: nat, f: AgencyFeeds) returns (s: Progress)
    requires store.Valid()
    modifies store
    ensures store.Valid()
    ensures s == AgencyCrmPulled(old(store.Value()), userId, f)
    ensures !s.Failed? ==> store.Value() == s.db
  {
    s := PullCompanies(store, f.companies, userId);
    if s.Running? {
      s := PullBrands(store, f.brands, userId);
    }
    if s.Running? {
      s := PullCrmContacts(store, f.contacts, userId);
    }
    if s.Running? {
      s := PullInvoices(store, Capped(f.invoices), userId);
    }
    if s.Running? {
      s := PullStatusUpdates(store, f.updates, userId);
    }
  }

  /** `sync_all_from_tv_planner`, with the current year as a parameter. */
  method SyncAllFromTvPlanner(store: Store, userId: nat, year: int, f: TvFeeds) returns (s: Progress)
    requires store.Valid()
    modifies store
    ensures store.Valid()
    ensures s == TvPlannerPulled(old(store.Value()), userId, year, f)
    ensures !s.Failed? ==> store.Value() == s.db
  {
    s := PullCampaigns(store, f.campaigns, userId, year);
    if s.Running? {
      s := PullTvContacts(store, f.contacts, userId);
    }
  }

  /** `main`: both sources, then the commit; after a failed flush the session is rolled back. */
  method RunInitialSync(store: Store, userId: nat, year: int, a: AgencyFeeds, t: TvFeeds) returns (ok: bool)
    requires store.Valid()
    modifies store
    ensures store.Valid()
    ensures ok == InitialSyncRun(old(store.Value()), userId, year, a, t).Ok?
    ensures store.Value() == if ok then InitialSyncRun(old(store.Value()), userId, year, a, t).db else old(store.Value())
  {
    var snapshot := store.Value();
    var s := SyncAllFromAgencyCrm(store, userId, a);
    if !s.Failed? {
      s := SyncAllFromTvPlanner(store, userId, year, t);
    }
    if s.Failed? {
      store.advertisers, store.contacts, store.activities := snapshot.advertisers, snapshot.contacts, snapshot.activities;
      store.spending, store.nextAdvertiserId := snapshot.spending, snapshot.nextAdvertiserId;
      ok := false;
    } else {
      ok := true;
    }
  }
}
