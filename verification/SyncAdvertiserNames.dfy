/**
 * `sync_advertiser_names()`: rename every advertiser that matches an
 * Agency CRM company to the CRM's "Brand (Company)" form, then add the
 * brands that are still missing as new advertisers, and commit.
 *
 * The brand list comes from an HTTP fetch, which is an input here. The
 * script as written cannot add a missing brand (the constructor call
 * passes a keyword the Advertiser model does not have); `SyncAsWritten`
 * models that, `Sync` the evident intent that the rest of the model uses.
 */
module SyncAdvertiserNames {

  import opened Common
  import opened Text
  import opened Models
  import Resolver

  /** One brand object of the `/api/brands` response: its `name` and `company_name` keys. */
  datatype Brand = Brand(name: Field, companyName: Field)

  /** What `requests.get(...)` gave: a response with its status and decoded brand list, or a request error. */
  datatype Fetch = Response(status: int, brands: seq<Brand>) | RequestError

  /** `brand.get('company_name', '')` when it is truthy: the company the brand is grouped under. */
  function CompanyOf(b: Brand): (r: Option<string>)
    ensures r.Some? <==> b.companyName.Str? && b.companyName.s != ""
    ensures r.Some? ==> r.value == b.companyName.s
  {
    if b.companyName.Truthy() then Some(b.companyName.s) else None
  }

  /**
   * `f"{brand['name']} ({brand['company_name']})"`: None where either key is
   * missing (a KeyError); a JSON null renders as "None".
   */
  function Formatted(b: Brand): (r: Option<string>)
    ensures r.None? <==> b.name.Absent? || b.companyName.Absent?
    ensures r.Some? ==> r.value == Render(b.name.GetOr(None)) + " (" + Render(b.companyName.GetOr(None)) + ")"
  {
    if b.name.Absent? || b.companyName.Absent? then None
    else Some(Render(b.name.GetOr(None)) + " (" + Render(b.companyName.GetOr(None)) + ")")
  }

  /** Every brand has both keys, so no formatting raises. */
  predicate AllFormatted(brands: seq<Brand>)
  {
    forall j :: 0 <= j < |brands| ==> Formatted(brands[j]).Some?
  }

  // ---------------------------------------------------------------------
  // company_to_brands
  // ---------------------------------------------------------------------

  /** The keys of `company_to_brands`, in the order they are inserted. */
  function Companies(brands: seq<Brand>): seq<string>
  {
    if brands == [] then []
    else
      var cs := Companies(brands[..|brands| - 1]);
      match CompanyOf(brands[|brands| - 1])
      case None => cs
      case Some(c) => if c in cs then cs else cs + [c]
  }

  /** The keys are distinct, every brand's company is a key, and every key is some brand's company. */
  lemma {:induction false} CompaniesProperties(brands: seq<Brand>)
    ensures Distinct(Companies(brands))
    ensures forall j :: 0 <= j < |brands| && CompanyOf(brands[j]).Some? ==> CompanyOf(brands[j]).value in Companies(brands)
    ensures forall c :: c in Companies(brands) ==> exists j :: 0 <= j < |brands| && CompanyOf(brands[j]) == Some(c)
    decreases |brands|
  {
    if brands != [] {
      var init := brands[..|brands| - 1];
      CompaniesProperties(init);
      assert forall j :: 0 <= j < |init| ==> init[j] == brands[j];
      var cs0 := Companies(init);
      var c := CompanyOf(brands[|brands| - 1]);
      forall x | x in cs0 ensures exists j :: 0 <= j < |brands| && CompanyOf(brands[j]) == Some(x) {
        var j :| 0 <= j < |init| && CompanyOf(init[j]) == Some(x);
        assert CompanyOf(brands[j]) == Some(x);
      }
    }
  }

  /** `company_to_brands[company]`: the brands of that company, in input order. */
  function BrandsOf(brands: seq<Brand>, company: string): seq<Brand>
  {
    if brands == [] then []
    else
      var g := BrandsOf(brands[..|brands| - 1], company);
      if CompanyOf(brands[|brands| - 1]) == Some(company) then g + [brands[|brands| - 1]] else g
  }

  /** A company's list holds brands of that company only, and all of them. */
  lemma {:induction false} BrandsOfProperties(brands: seq<Brand>, company: string)
    ensures forall b :: b in BrandsOf(brands, company) ==> b in brands && CompanyOf(b) == Some(company)
    ensures forall j :: 0 <= j < |brands| && CompanyOf(brands[j]) == Some(company) ==> brands[j] in BrandsOf(brands, company)
    decreases |brands|
  {
    if brands != [] {
      var init := brands[..|brands| - 1];
      BrandsOfProperties(init, company);
      assert forall j :: 0 <= j < |init| ==> init[j] == brands[j];
      var g0 := BrandsOf(init, company);
      forall b | b in g0 ensures b in brands {
        var k :| 0 <= k < |init| && init[k] == b;
        assert brands[k] == init[k];
      }
    }
  }

  /** The first brand of a company's list is the first brand of that company in the response. */
  lemma {:induction false} FirstOfGroup(brands: seq<Brand>, company: string, k: nat)
    requires k < |brands| && CompanyOf(brands[k]) == Some(company)
    requires forall j :: 0 <= j < k ==> CompanyOf(brands[j]) != Some(company)
    ensures BrandsOf(brands, company) != [] && BrandsOf(brands, company)[0] == brands[k]
    decreases |brands|
  {
    var init := brands[..|brands| - 1];
    assert forall j :: 0 <= j < |init| ==> init[j] == brands[j];
    if k < |init| {
      FirstOfGroup(init, company, k);
    } else {
      NoneOfCompany(init, company);
    }
  }

  /** A company none of the brands has gets an empty list. */
  lemma {:induction false} NoneOfCompany(brands: seq<Brand>, company: string)
    requires forall j :: 0 <= j < |brands| ==> CompanyOf(brands[j]) != Some(company)
    ensures BrandsOf(brands, company) == []
    decreases |brands|
  {
    if brands != [] {
      var init := brands[..|brands| - 1];
      assert forall j :: 0 <= j < |init| ==> init[j] == brands[j];
      NoneOfCompany(init, company);
    }
  }

  /** Every key of `company_to_brands` has at least one brand. */
  lemma GroupNonEmpty(brands: seq<Brand>, company: string)
    requires company in Companies(brands)
    ensures BrandsOf(brands, company) != []
  {
    CompaniesProperties(brands);
    BrandsOfProperties(brands, company);
    var j :| 0 <= j < |brands| && CompanyOf(brands[j]) == Some(company);
    assert brands[j] in BrandsOf(brands, company);
  }

  /** A company's list holds exactly its brands: dropped are those with no company. */
  lemma GroupsCoverCompanies(brands: seq<Brand>, j: nat)
    requires j < |brands|
    ensures CompanyOf(brands[j]).Some? <==> exists c :: c in Companies(brands) && brands[j] in BrandsOf(brands, c)
  {
    CompaniesProperties(brands);
    if CompanyOf(brands[j]).Some? {
      var c := CompanyOf(brands[j]).value;
      BrandsOfProperties(brands, c);
      assert c in Companies(brands) && brands[j] in BrandsOf(brands, c);
    }
    if exists c :: c in Companies(brands) && brands[j] in BrandsOf(brands, c) {
      var c :| c in Companies(brands) && brands[j] in BrandsOf(brands, c);
      BrandsOfProperties(brands, c);
      var g := BrandsOf(brands, c);
      var i :| 0 <= i < |g| && g[i] == brands[j];
    }
  }

  // ---------------------------------------------------------------------
  // Matching an advertiser to a company
  // ---------------------------------------------------------------------

  /** `current_name.lower() in company_name.lower() or company_name.lower() in current_name.lower()` */
  predicate Related(name: string, company: string)
  {
    Contains(Lower(company), Lower(name)) || Contains(Lower(name), Lower(company))
  }

  /**
   * The company an advertiser is matched to: its own name when that is a
   * key, otherwise the first key, in insertion order, related to it.
   */
  function MatchedCompany(cs: seq<string>, name: string): (r: Option<string>)
    ensures r.Some? ==> r.value in cs
    ensures name in cs ==> r == Some(name)
    ensures name !in cs ==> (r.None? <==> forall p :: 0 <= p < |cs| ==> !Related(name, cs[p]))
    ensures name !in cs && r.Some? ==>
      exists k :: 0 <= k < |cs| && cs[k] == r.value && Related(name, cs[k]) && forall p :: 0 <= p < k ==> !Related(name, cs[p])
  {
    if name in cs then Some(name)
    else
      match Resolver.First(cs, c => Related(name, c))
      case None => None
      case Some(k) => Some(cs[k])
  }

  /** `matched_brand`: the first brand of the matched company. */
  function MatchedBrand(brands: seq<Brand>, name: string): (r: Option<Brand>)
    ensures r.Some? ==> r.value in brands && CompanyOf(r.value).Some?
    ensures r.Some? <==> MatchedCompany(Companies(brands), name).Some?
  {
    match MatchedCompany(Companies(brands), name)
    case None => None
    case Some(c) =>
      GroupNonEmpty(brands, c);
      BrandsOfProperties(brands, c);
      Some(BrandsOf(brands, c)[0])
  }

  // ---------------------------------------------------------------------
  // Renaming
  // ---------------------------------------------------------------------

  /** `advertiser.name = new_name` for a matched advertiser; only the name ever changes. */
  function Renamed(a: Advertiser, brands: seq<Brand>): (r: Advertiser)
    ensures r.id == a.id && r.currentAgency == a.currentAgency && r.leadStatus == a.leadStatus
    ensures MatchedBrand(brands, a.name).None? ==> r == a
    ensures MatchedBrand(brands, a.name).Some? && Formatted(MatchedBrand(brands, a.name).value).Some? ==>
      r.name == Formatted(MatchedBrand(brands, a.name).value).value
  {
    match MatchedBrand(brands, a.name)
    case None => a
    case Some(b) => if Formatted(b).Some? then a.(name := Formatted(b).value) else a
  }

  /** The advertisers after the renaming loop, in the same order. */
  function RenameAll(advs: seq<Advertiser>, brands: seq<Brand>): (r: seq<Advertiser>)
    ensures |r| == |advs|
    ensures forall i :: 0 <= i < |advs| ==> r[i] == Renamed(advs[i], brands)
  {
    if advs == [] then [] else RenameAll(advs[..|advs| - 1], brands) + [Renamed(advs[|advs| - 1], brands)]
  }

  /** How many elements of `s` satisfy `p`. */
  function Count<T>(s: seq<T>, p: T -> bool): nat
  {
    if s == [] then 0 else Count(s[..|s| - 1], p) + (if p(s[|s| - 1]) then 1 else 0)
  }

  /** The positions of `s` whose element satisfies `p`. */
  function Where<T>(s: seq<T>, p: T -> bool): set<nat>
  {
    set i: nat | i < |s| && p(s[i])
  }

  /** `Count` is the number of positions `Where` collects. */
  lemma {:induction false} CountIsWhere<T>(s: seq<T>, p: T -> bool)
    ensures Count(s, p) == |Where(s, p)|
    decreases |s|
  {
    if s == [] {
      assert Where(s, p) == {};
    } else {
      var init := s[..|s| - 1];
      CountIsWhere(init, p);
      var n := |init|;
      assert forall i :: 0 <= i < n ==> init[i] == s[i];
      if p(s[n]) {
        assert Where(s, p) == Where(init, p) + {n};
      } else {
        assert Where(s, p) == Where(init, p);
      }
    }
  }

  /** Counting one more element. */
  lemma CountSnoc<T>(s: seq<T>, i: nat, p: T -> bool)
    requires i < |s|
    ensures Count(s[..i + 1], p) == Count(s[..i], p) + (if p(s[i]) then 1 else 0)
  {
    assert s[..i + 1][..i] == s[..i];
  }

  /** The renaming loop gives `a` a different name. */
  predicate NameChanged(a: Advertiser, brands: seq<Brand>)
  {
    Renamed(a, brands).name != a.name
  }

  /** `updated_count` over the advertisers. */
  function Renames(advs: seq<Advertiser>, brands: seq<Brand>): nat
  {
    Count(advs, a => NameChanged(a, brands))
  }

  /** `updated_count` is the number of advertisers whose name changed. */
  lemma RenamesCount(advs: seq<Advertiser>, brands: seq<Brand>)
    ensures Renames(advs, brands) == |set i: nat | i < |advs| && Renamed(advs[i], brands).name != advs[i].name|
  {
    CountIsWhere(advs, a => NameChanged(a, brands));
    assert Where(advs, a => NameChanged(a, brands)) == set i: nat | i < |advs| && Renamed(advs[i], brands).name != advs[i].name;
  }

  // ---------------------------------------------------------------------
  // Missing brands
  // ---------------------------------------------------------------------

  /** `existing_names`: the names after renaming. */
  function NamesOf(advs: seq<Advertiser>): set<string>
  {
    set a | a in advs :: a.name
  }

  /** `new_advertisers`: the formatted names of the brands, in order, that no advertiser has. */
  function Missing(names: set<string>, brands: seq<Brand>): (r: seq<string>)
    ensures forall i :: 0 <= i < |r| ==> r[i] !in names && exists j :: 0 <= j < |brands| && Formatted(brands[j]) == Some(r[i])
    ensures forall j :: 0 <= j < |brands| && Formatted(brands[j]).Some? && Formatted(brands[j]).value !in names ==>
      Formatted(brands[j]).value in r
    decreases |brands|
  {
    if brands == [] then []
    else
      var init, b := brands[..|brands| - 1], brands[|brands| - 1];
      var r0 := Missing(names, init);
      assert forall j :: 0 <= j < |init| ==> init[j] == brands[j];
      if Formatted(b).Some? && Formatted(b).value !in names then
        var r := r0 + [Formatted(b).value];
        assert Formatted(brands[|brands| - 1]) == Some(r[|r0|]);
        r
      else r0
  }

  /** `Advertiser(name=expected_name)` for each missing brand, with the ids they are given in turn. */
  function NewRows(next: nat, names: seq<string>): (rows: seq<Advertiser>)
    ensures |rows| == |names|
    ensures forall k :: 0 <= k < |names| ==> rows[k] == Advertiser(next + k, names[k], None, NonQualified)
  {
    seq(|names|, k requires 0 <= k < |names| => Advertiser(next + k, names[k], None, NonQualified))
  }

  // ---------------------------------------------------------------------
  // The script
  // ---------------------------------------------------------------------

  /** What `sync_advertiser_names()` leaves: False with nothing committed, or the committed store. */
  datatype SyncOutcome = Failed | Synced(db: DB, updated: nat, added: seq<string>)

  /** The fetch gave a 200 response. */
  predicate Fetched(fetch: Fetch)
  {
    fetch.Response? && fetch.status == 200
  }

  /**
   * The intended run: rename, add every missing brand, commit. A failed
   * fetch, a brand missing a key, or a name taken twice (the unique column
   * rejects the commit) leaves the store as it was.
   */
  function Sync(db: DB, fetch: Fetch): (r: SyncOutcome)
  {
    if !Fetched(fetch) || !AllFormatted(fetch.brands) then Failed
    else
      var brands := fetch.brands;
      var renamed := RenameAll(db.advertisers, brands);
      var added := Missing(NamesOf(renamed), brands);
      var advs := renamed + NewRows(db.nextAdvertiserId, added);
      if !NamesUnique(advs) then Failed
      else Synced(db.(advertisers := advs, nextAdvertiserId := db.nextAdvertiserId + |added|), Renames(db.advertisers, brands), added)
  }

  /**
   * The run as written: the constructor call for a missing brand raises
   * before anything is committed, so only a run with no missing brand
   * commits its renames.
   */
  function SyncAsWritten(db: DB, fetch: Fetch): (r: SyncOutcome)
  {
    if !Fetched(fetch) || !AllFormatted(fetch.brands) then Failed
    else
      var brands := fetch.brands;
      var renamed := RenameAll(db.advertisers, brands);
      if Missing(NamesOf(renamed), brands) != [] then Failed
      else if !NamesUnique(renamed) then Failed
      else Synced(db.(advertisers := renamed), Renames(db.advertisers, brands), [])
  }

  /** A failed fetch returns False before any advertiser is touched. */
  lemma FetchFailureChangesNothing(db: DB, fetch: Fetch)
    requires !Fetched(fetch)
    ensures Sync(db, fetch) == Failed && SyncAsWritten(db, fetch) == Failed
  {
  }

  /** Renaming keeps every id, so every reference in the store stays valid. */
  lemma RenameKeepsIds(advs: seq<Advertiser>, brands: seq<Brand>, n: nat)
    requires IdsOrdered(advs, n)
    ensures IdsOrdered(RenameAll(advs, brands), n)
    ensures Ids(RenameAll(advs, brands)) == Ids(advs)
  {
    var r := RenameAll(advs, brands);
    forall x | x in Ids(r) ensures x in Ids(advs) {
      var a :| a in r && a.id == x;
      var i :| 0 <= i < |r| && r[i] == a;
    }
    forall x | x in Ids(advs) ensures x in Ids(r) {
      var a :| a in advs && a.id == x;
      var i :| 0 <= i < |advs| && advs[i] == a;
      assert r[i] in r;
    }
  }

  /** The new rows take ids from the next id on, in order. */
  lemma NewRowsOrdered(advs: seq<Advertiser>, next: nat, names: seq<string>)
    requires IdsOrdered(advs, next) && 1 <= next
    ensures IdsOrdered(advs + NewRows(next, names), next + |names|)
    ensures Ids(advs) <= Ids(advs + NewRows(next, names))
  {
    var all := advs + NewRows(next, names);
    forall i, j | 0 <= i < j < |all| ensures all[i].id < all[j].id {
      if j < |advs| {
        assert all[i] == advs[i] && all[j] == advs[j];
      } else if i < |advs| {
        assert all[i] == advs[i];
      }
    }
    forall x | x in Ids(advs) ensures x in Ids(all) {
      var a :| a in advs && a.id == x;
      assert a in all;
    }
  }

  /** The intended run leaves a store that meets every constraint of the schema. */
  lemma SyncValid(db: DB, fetch: Fetch)
    requires db.Valid() && Sync(db, fetch).Synced?
    ensures Sync(db, fetch).db.Valid()
  {
    var brands := fetch.brands;
    var renamed := RenameAll(db.advertisers, brands);
    var added := Missing(NamesOf(renamed), brands);
    RenameKeepsIds(db.advertisers, brands, db.nextAdvertiserId);
    NewRowsOrdered(renamed, db.nextAdvertiserId, added);
  }

  /** After the intended run every brand's "Brand (Company)" name is an advertiser's name. */
  lemma SyncCoversBrands(db: DB, fetch: Fetch, j: nat)
    requires Sync(db, fetch).Synced? && j < |fetch.brands|
    ensures Formatted(fetch.brands[j]).Some?
    ensures Formatted(fetch.brands[j]).value in NamesOf(Sync(db, fetch).db.advertisers)
  {
    var brands := fetch.brands;
    var renamed := RenameAll(db.advertisers, brands);
    var added := Missing(NamesOf(renamed), brands);
    var rows := NewRows(db.nextAdvertiserId, added);
    var x := Formatted(brands[j]).value;
    if x in NamesOf(renamed) {
      var a :| a in renamed && a.name == x;
      assert a in renamed + rows;
    } else {
      var k :| 0 <= k < |added| && added[k] == x;
      assert rows[k] in renamed + rows;
    }
  }

  /** The intended run changes only advertiser names and adds advertisers: the other tables are untouched. */
  lemma SyncTouchesOnlyAdvertisers(db: DB, fetch: Fetch)
    requires Sync(db, fetch).Synced?
    ensures Sync(db, fetch).db.contacts == db.contacts
    ensures Sync(db, fetch).db.activities == db.activities
    ensures Sync(db, fetch).db.spending == db.spending
    ensures |Sync(db, fetch).db.advertisers| == |db.advertisers| + |Sync(db, fetch).added|
    ensures forall i :: 0 <= i < |db.advertisers| ==>
      Sync(db, fetch).db.advertisers[i] == db.advertisers[i].(name := Sync(db, fetch).db.advertisers[i].name)
  {
    var d := Sync(db, fetch).db;
    forall i | 0 <= i < |db.advertisers|
      ensures d.advertisers[i] == db.advertisers[i].(name := d.advertisers[i].name)
    {
      assert d.advertisers[i] == Renamed(db.advertisers[i], fetch.brands);
    }
  }

  /** A missing brand makes the script as written fail, where the intended run adds it. */
  lemma AsWrittenFailsOnMissingBrand(db: DB, fetch: Fetch)
    requires Fetched(fetch) && AllFormatted(fetch.brands)
    requires Missing(NamesOf(RenameAll(db.advertisers, fetch.brands)), fetch.brands) != []
    ensures SyncAsWritten(db, fetch) == Failed
  {
  }

  /** Where nothing is missing, the two runs agree. */
  lemma AsWrittenAgreesWithoutMissing(db: DB, fetch: Fetch)
    requires Fetched(fetch) && AllFormatted(fetch.brands)
    requires Missing(NamesOf(RenameAll(db.advertisers, fetch.brands)), fetch.brands) == []
    ensures SyncAsWritten(db, fetch) == Sync(db, fetch)
  {
    var renamed := RenameAll(db.advertisers, fetch.brands);
    assert renamed + NewRows(db.nextAdvertiserId, []) == renamed;
  }

  /** One brand "B" of company "C", and no advertiser yet: "B (C)" is missing. */
  lemma OneBrandMissing(brands: seq<Brand>)
    requires brands == [Brand(Str("B"), Str("C"))]
    ensures AllFormatted(brands)
    ensures Missing(NamesOf(RenameAll([], brands)), brands) == ["B (C)"]
  {
    assert "B" + " (" + "C" + ")" == "B (C)" by {
      assert "B" + " (" + "C" + ")" == ['B', ' ', '(', 'C', ')'];
    }
    assert Formatted(brands[0]) == Some("B (C)");
    assert NamesOf(RenameAll([], brands)) == {};
    assert brands[..0] == [];
  }

  /** An empty store and one brand: as written the run fails; as intended it adds "B (C)". */
  lemma AsWrittenCounterexample(db: DB, fetch: Fetch)
    requires db == DB([], [], [], [], 1) && fetch == Response(200, [Brand(Str("B"), Str("C"))])
    ensures SyncAsWritten(db, fetch) == Failed
    ensures Sync(db, fetch) == Synced(DB([Advertiser(1, "B (C)", None, NonQualified)], [], [], [], 2), 0, ["B (C)"])
  {
    OneBrandMissing(fetch.brands);
    AsWrittenFailsOnMissingBrand(db, fetch);
    var rows := NewRows(1, ["B (C)"]);
    assert rows == [Advertiser(1, "B (C)", None, NonQualified)];
    assert RenameAll([], fetch.brands) + rows == rows;
    SyncedWith(db, fetch, rows, ["B (C)"]);
  }

  // ---------------------------------------------------------------------
  // The script against the store
  // ---------------------------------------------------------------------

  /** `company_to_brands` and the order of its keys once the brands `seen` are grouped. */
  ghost predicate GroupedAs(seen: seq<Brand>, groups: map<string, seq<Brand>>, order: seq<string>)
  {
    && order == Companies(seen)
    && (forall c :: c in groups <==> c in order)
    && (forall c :: c in groups ==> groups[c] == BrandsOf(seen, c))
  }

  /** The keys after one more brand, in terms of the keys before it. */
  lemma CompaniesSnoc(brands: seq<Brand>, i: nat)
    requires i < |brands|
    ensures CompanyOf(brands[i]).None? ==> Companies(brands[..i + 1]) == Companies(brands[..i])
    ensures var c := CompanyOf(brands[i]);
      c.Some? && c.value in Companies(brands[..i]) ==> Companies(brands[..i + 1]) == Companies(brands[..i])
    ensures var c := CompanyOf(brands[i]);
      c.Some? && c.value !in Companies(brands[..i]) ==> Companies(brands[..i + 1]) == Companies(brands[..i]) + [c.value]
  {
    assert brands[..i + 1][..i] == brands[..i];
  }

  /** A company's list after one more brand, in terms of its list before it. */
  lemma BrandsOfSnoc(brands: seq<Brand>, i: nat, c: string)
    requires i < |brands|
    ensures BrandsOf(brands[..i + 1], c) == BrandsOf(brands[..i], c) + (if CompanyOf(brands[i]) == Some(c) then [brands[i]] else [])
  {
    assert brands[..i + 1][..i] == brands[..i];
  }

  /** A company not yet met has no brands yet. */
  lemma NoBrandsYet(brands: seq<Brand>, c: string)
    requires c !in Companies(brands)
    ensures BrandsOf(brands, c) == []
  {
    CompaniesProperties(brands);
    NoneOfCompany(brands, c);
  }

  /** A brand without a company leaves `company_to_brands` as it was. */
  lemma SkipBrandStep(brands: seq<Brand>, i: nat, groups: map<string, seq<Brand>>, order: seq<string>)
    requires i < |brands| && GroupedAs(brands[..i], groups, order) && CompanyOf(brands[i]).None?
    ensures GroupedAs(brands[..i + 1], groups, order)
  {
    CompaniesSnoc(brands, i);
    forall k | k in groups ensures groups[k] == BrandsOf(brands[..i + 1], k) {
      BrandsOfSnoc(brands, i, k);
    }
  }

  /** A brand of a known company is appended to that company's list. */
  lemma AppendBrandStep(brands: seq<Brand>, i: nat, groups: map<string, seq<Brand>>, order: seq<string>, c: string)
    requires i < |brands| && GroupedAs(brands[..i], groups, order)
    requires CompanyOf(brands[i]) == Some(c) && c in groups
    ensures GroupedAs(brands[..i + 1], groups[c := groups[c] + [brands[i]]], order)
  {
    CompaniesSnoc(brands, i);
    var g := groups[c := groups[c] + [brands[i]]];
    forall k | k in g ensures g[k] == BrandsOf(brands[..i + 1], k) {
      BrandsOfSnoc(brands, i, k);
    }
  }

  /** A brand of a new company starts that company's list and adds it to the key order. */
  lemma NewCompanyStep(brands: seq<Brand>, i: nat, groups: map<string, seq<Brand>>, order: seq<string>, c: string)
    requires i < |brands| && GroupedAs(brands[..i], groups, order)
    requires CompanyOf(brands[i]) == Some(c) && c !in groups
    ensures GroupedAs(brands[..i + 1], groups[c := [brands[i]]], order + [c])
  {
    CompaniesSnoc(brands, i);
    NoBrandsYet(brands[..i], c);
    var g := groups[c := [brands[i]]];
    forall k | k in g ensures g[k] == BrandsOf(brands[..i + 1], k) {
      BrandsOfSnoc(brands, i, k);
    }
  }

  /** The loop that builds `company_to_brands`. */
  method GroupBrands(brands: seq<Brand>) returns (groups: map<string, seq<Brand>>, order: seq<string>)
    ensures order == Companies(brands)
    ensures forall c :: c in groups <==> c in order
    ensures forall c :: c in groups ==> groups[c] == BrandsOf(brands, c)
  {
    groups, order := map[], [];
    var i := 0;
    while i < |brands|
      invariant 0 <= i <= |brands|
      invariant GroupedAs(brands[..i], groups, order)
    {
      var company := brands[i].companyName;
      if company.Str? && company.s != "" {
        if company.s in groups {
          AppendBrandStep(brands, i, groups, order, company.s);
          groups := groups[company.s := groups[company.s] + [brands[i]]];
        } else {
          NewCompanyStep(brands, i, groups, order, company.s);
          groups := groups[company.s := [brands[i]]];
          order := order + [company.s];
        }
      } else {
        SkipBrandStep(brands, i, groups, order);
      }
      i := i + 1;
    }
    assert brands[..i] == brands;
  }

  /** The direct and partial match for one advertiser name. */
  method MatchBrand(groups: map<string, seq<Brand>>, order: seq<string>, brands: seq<Brand>, name: string)
    returns (matched: Option<Brand>)
    requires order == Companies(brands)
    requires forall c :: c in groups <==> c in order
    requires forall c :: c in groups ==> groups[c] == BrandsOf(brands, c)
    ensures matched == MatchedBrand(brands, name)
  {
    if name in groups {
      GroupNonEmpty(brands, name);
      return Some(groups[name][0]);
    }
    var k := 0;
    while k < |order|
      invariant 0 <= k <= |order|
      invariant forall p :: 0 <= p < k ==> !Related(name, order[p])
    {
      if Contains(Lower(name), Lower(order[k])) || Contains(Lower(order[k]), Lower(name)) {
        Resolver.FirstIsUnique(order, c => Related(name, c), k);
        GroupNonEmpty(brands, order[k]);
        return Some(groups[order[k]][0]);
      }
      k := k + 1;
    }
    matched := None;
  }

  /** A brand of the response that lacks a key makes the run raise. */
  lemma UnformattedBrand(brands: seq<Brand>, b: Brand)
    requires b in brands && Formatted(b).None?
    ensures !AllFormatted(brands)
  {
    var j :| 0 <= j < |brands| && brands[j] == b;
  }

  /** A matched brand with a name gives the advertiser its "Brand (Company)" name. */
  lemma RenamedTo(a: Advertiser, brands: seq<Brand>, b: Brand)
    requires MatchedBrand(brands, a.name) == Some(b) && !b.name.Absent?
    ensures b.companyName.Str?
    ensures Renamed(a, brands) == a.(name := Render(b.name.GetOr(None)) + " (" + b.companyName.s + ")")
  {
  }

  /** The renaming loop's results after one more advertiser. */
  lemma RenameStep(advs: seq<Advertiser>, brands: seq<Brand>, i: nat, next: Advertiser)
    requires i < |advs| && next == Renamed(advs[i], brands)
    ensures RenameAll(advs[..i + 1], brands) == RenameAll(advs[..i], brands) + [next]
    ensures Renames(advs[..i + 1], brands) == Renames(advs[..i], brands) + (if next.name != advs[i].name then 1 else 0)
  {
    assert advs[..i + 1][..i] == advs[..i];
    CountSnoc(advs, i, a => NameChanged(a, brands));
  }

  /** The loop body for one advertiser: false where its matched brand has no `name` key. */
  method RenameOne(a: Advertiser, brands: seq<Brand>, groups: map<string, seq<Brand>>, order: seq<string>)
    returns (ok: bool, next: Advertiser)
    requires order == Companies(brands)
    requires forall c :: c in groups <==> c in order
    requires forall c :: c in groups ==> groups[c] == BrandsOf(brands, c)
    ensures !ok ==> !AllFormatted(brands)
    ensures ok ==> next == Renamed(a, brands)
  {
    var matched := MatchBrand(groups, order, brands, a.name);
    if matched.None? {
      return true, a;
    }
    var b := matched.value;
    if b.name.Absent? {
      UnformattedBrand(brands, b);
      return false, a;
    }
    RenamedTo(a, brands, b);
    return true, a.(name := Render(b.name.GetOr(None)) + " (" + b.companyName.s + ")");
  }

  /** The renaming loop: returns false where a matched brand has no `name` key (a KeyError). */
  method RenameAdvertisers(advs: seq<Advertiser>, brands: seq<Brand>, groups: map<string, seq<Brand>>, order: seq<string>)
    returns (ok: bool, renamed: seq<Advertiser>, updated: nat)
    requires order == Companies(brands)
    requires forall c :: c in groups <==> c in order
    requires forall c :: c in groups ==> groups[c] == BrandsOf(brands, c)
    ensures !ok ==> !AllFormatted(brands)
    ensures ok ==> renamed == RenameAll(advs, brands) && updated == Renames(advs, brands)
  {
    renamed, updated := [], 0;
    var i := 0;
    while i < |advs|
      invariant 0 <= i <= |advs|
      invariant renamed == RenameAll(advs[..i], brands) && updated == Renames(advs[..i], brands)
    {
      var a := advs[i];
      var found, next := RenameOne(a, brands, groups, order);
      if !found {
        return false, renamed, updated;
      }
      RenameStep(advs, brands, i, next);
      if next.name != a.name {
        updated := updated + 1;
      }
      renamed := renamed + [next];
      i := i + 1;
    }
    assert advs[..i] == advs;
    ok := true;
  }

  /** The missing-brand loop's results after one more brand. */
  lemma MissingStep(existing: set<string>, brands: seq<Brand>, j: nat)
    requires j < |brands|
    ensures AllFormatted(brands[..j + 1]) <==> AllFormatted(brands[..j]) && Formatted(brands[j]).Some?
    ensures var f := Formatted(brands[j]);
      Missing(existing, brands[..j + 1]) ==
        Missing(existing, brands[..j]) + (if f.Some? && f.value !in existing then [f.value] else [])
  {
    assert brands[..j + 1][..j] == brands[..j] && brands[..j + 1][j] == brands[j];
  }

  /** The missing-brand loop: returns false where a brand lacks a key (a KeyError). */
  method MissingBrands(existing: set<string>, brands: seq<Brand>) returns (ok: bool, added: seq<string>)
    ensures ok <==> AllFormatted(brands)
    ensures ok ==> added == Missing(existing, brands)
  {
    added := [];
    var j := 0;
    while j < |brands|
      invariant 0 <= j <= |brands|
      invariant AllFormatted(brands[..j])
      invariant added == Missing(existing, brands[..j])
    {
      MissingStep(existing, brands, j);
      var b := brands[j];
      if b.name.Absent? || b.companyName.Absent? {
        return false, added;
      }
      var expected := Render(b.name.GetOr(None)) + " (" + Render(b.companyName.GetOr(None)) + ")";
      if expected !in existing {
        added := added + [expected];
      }
      j := j + 1;
    }
    assert brands[..j] == brands;
    ok := true;
  }

  /** The intended run, once the renames and the missing brands are known and the names are unique. */
  lemma SyncedWith(db: DB, fetch: Fetch, advs: seq<Advertiser>, added: seq<string>)
    requires Fetched(fetch) && AllFormatted(fetch.brands)
    requires added == Missing(NamesOf(RenameAll(db.advertisers, fetch.brands)), fetch.brands)
    requires advs == RenameAll(db.advertisers, fetch.brands) + NewRows(db.nextAdvertiserId, added)
    ensures NamesUnique(advs) ==>
      Sync(db, fetch) == Synced(db.(advertisers := advs, nextAdvertiserId := db.nextAdvertiserId + |added|), Renames(db.advertisers, fetch.brands), added)
    ensures !NamesUnique(advs) ==> Sync(db, fetch) == Failed
  {
  }

  /**
   * `sync_advertiser_names()` against the store, as intended: True with
   * the renames and the new advertisers committed, or False and nothing
   * changed.
   */
  method SyncNames(store: Store, fetch: Fetch) returns (ok: bool, updated: nat, added: seq<string>)
    requires store.Valid()
    modifies store
    ensures store.Valid()
    ensures ok <==> Sync(old(store.Value()), fetch).Synced?
    ensures !ok ==> store.Value() == old(store.Value())
    ensures ok ==> store.Value() == Sync(old(store.Value()), fetch).db
    ensures ok ==> updated == Sync(old(store.Value()), fetch).updated && added == Sync(old(store.Value()), fetch).added
  {
    var before := store.Value();
    if fetch.RequestError? || fetch.status != 200 {
      return false, 0, [];
    }
    var brands := fetch.brands;
    var groups, order := GroupBrands(brands);
    var renamedOk, renamed, count := RenameAdvertisers(before.advertisers, brands, groups, order);
    if !renamedOk {
      return false, 0, [];
    }
    var complete, missing := MissingBrands(NamesOf(renamed), brands);
    if !complete {
      return false, 0, [];
    }
    var advs := renamed + NewRows(before.nextAdvertiserId, missing);
    SyncedWith(before, fetch, advs, missing);
    if !NamesUnique(advs) {
      return false, 0, [];
    }
    SyncValid(before, fetch);
    store.Commit(before.(advertisers := advs, nextAdvertiserId := before.nextAdvertiserId + |missing|));
    ok, updated, added := true, count, missing;
  }
}
