/**
 * The entity store of the CRM (app/models.py): advertisers, contacts,
 * activities and yearly spending rows, the figures derived from them, and
 * the contact-to-advertiser relationships that are read back from
 * activity text.
 */
module Models {

  import opened Common
  import opened Text

  // ---------------------------------------------------------------------
  // Users
  // ---------------------------------------------------------------------

  /** `User.is_admin` */
  predicate IsAdmin(role: string)
  {
    role == "admin"
  }

  /** `User.is_team_lead`: team leads and admins. */
  predicate IsTeamLead(role: string)
  {
    role in ["admin", "team_lead"]
  }

  /** Every admin passes the team-lead check, and the two checks differ exactly on "team_lead". */
  lemma AdminIsTeamLead(role: string)
    ensures IsAdmin(role) ==> IsTeamLead(role)
    ensures IsTeamLead(role) && !IsAdmin(role) <==> role == "team_lead"
  {
  }

  // ---------------------------------------------------------------------
  // Entities
  // ---------------------------------------------------------------------

  /** The lead statuses an advertiser can carry. */
  datatype LeadStatus = NonQualified | Ours | Network | Cold | GetInfo | Warm | Hot | Lost | NonMarket

  /** The text stored in the `lead_status` column. */
  function StatusName(s: LeadStatus): string
  {
    match s
    case NonQualified => "non_qualified"
    case Ours => "ours"
    case Network => "network"
    case Cold => "cold"
    case GetInfo => "get_info"
    case Warm => "warm"
    case Hot => "hot"
    case Lost => "lost"
    case NonMarket => "non_market"
  }

  datatype Advertiser = Advertiser(id: nat, name: string, currentAgency: Option<string>, leadStatus: LeadStatus)

  /** One person; `advertiserId` is the primary advertiser only. */
  datatype Contact = Contact(
    advertiserId: Option<nat>,
    agencyCrmId: Option<int>,
    firstName: string,
    lastName: string,
    email: Option<string>,
    phone: Option<string>,
    linkedinUrl: Option<string>,
    addedById: nat)

  datatype Activity = Activity(advertiserId: nat, userId: nat, activityType: string, description: string, outcome: Option<string>)

  /** The row id of the system user that sync code writes as the actor. */
  const SystemUser: nat := 1

  /** An activity of type 'note'. */
  function Note(advertiserId: nat, userId: nat, description: string, outcome: Option<string>): Activity
  {
    Activity(advertiserId, userId, "note", description, outcome)
  }

  /** Gross spend of one advertiser in one year, per channel, with an optional manual net figure. */
  datatype SpendingData = SpendingData(
    advertiserId: nat,
    year: int,
    cinema: real,
    billboard: real,
    indoorTv: real,
    internet: real,
    magazines: real,
    newspapers: real,
    outdoorStatic: real,
    radio: real,
    tv: real,
    grandTotal: real,
    netTotal: Option<real>)

  /** A row as the column defaults create it: every figure 0 and no manual net. */
  function EmptySpending(advertiserId: nat, year: int): SpendingData
  {
    SpendingData(advertiserId, year, 0.0, 0.0, 0.0, 0.0, 0.0, 0.0, 0.0, 0.0, 0.0, 0.0, None)
  }

  // ---------------------------------------------------------------------
  // Net spending
  // ---------------------------------------------------------------------

  datatype Channel = Tv | Cinema | Radio | OutdoorStatic | Billboard | Internet | Magazines | Newspapers | IndoorTv

  /** The nine channels, in the order the net figure adds them up. */
  const AllChannels: seq<Channel> := [Tv, Cinema, Radio, OutdoorStatic, Billboard, Internet, Magazines, Newspapers, IndoorTv]

  /** The share of gross spend kept after the standard industry discount. */
  function Retention(c: Channel): real
  {
    match c
    case Tv => 0.2
    case Cinema => 0.2
    case Radio => 0.3
    case _ => 0.5
  }

  function Gross(s: SpendingData, c: Channel): real
  {
    match c
    case Tv => s.tv
    case Cinema => s.cinema
    case Radio => s.radio
    case OutdoorStatic => s.outdoorStatic
    case Billboard => s.billboard
    case Internet => s.internet
    case Magazines => s.magazines
    case Newspapers => s.newspapers
    case IndoorTv => s.indoorTv
  }

  /** Σ Retention(c) · gross(c) over the given channels. */
  function WeightedSum(s: SpendingData, cs: seq<Channel>): real
  {
    if cs == [] then 0.0 else Retention(cs[0]) * Gross(s, cs[0]) + WeightedSum(s, cs[1..])
  }

  /** Σ gross(c) over the given channels. */
  function GrossSum(s: SpendingData, cs: seq<Channel>): real
  {
    if cs == [] then 0.0 else Gross(s, cs[0]) + GrossSum(s, cs[1..])
  }

  predicate ChannelsNonNegative(s: SpendingData)
  {
    forall c :: 0.0 <= Gross(s, c)
  }

  /**
   * `SpendingData.calculated_net_total`: a manual net figure wins; otherwise
   * each channel's gross is discounted by its fixed retention factor.
   */
  function CalculatedNetTotal(s: SpendingData): (net: real)
    ensures s.netTotal.Some? ==> net == s.netTotal.value
    ensures s.netTotal.None? ==> net == WeightedSum(s, AllChannels)
  {
    if s.netTotal.Some? then s.netTotal.value
    else
      WeightedSumUnfolded(s);
      var net := 0.0;
      var net := net + s.tv * 0.2;
      var net := net + s.cinema * 0.2;
      var net := net + s.radio * 0.3;
      var net := net + s.outdoorStatic * 0.5;
      var net := net + s.billboard * 0.5;
      var net := net + s.internet * 0.5;
      var net := net + s.magazines * 0.5;
      var net := net + s.newspapers * 0.5;
      var net := net + s.indoorTv * 0.5;
      net
  }

  /** The discounted sum over all nine channels, written out term by term. */
  lemma WeightedSumUnfolded(s: SpendingData)
    ensures WeightedSum(s, AllChannels) ==
      0.2 * s.tv + (0.2 * s.cinema + (0.3 * s.radio + (0.5 * s.outdoorStatic + (0.5 * s.billboard
      + (0.5 * s.internet + (0.5 * s.magazines + (0.5 * s.newspapers + (0.5 * s.indoorTv + 0.0))))))))
  {
    var c8 := [IndoorTv];
    var c7 := [Newspapers] + c8;
    var c6 := [Magazines] + c7;
    var c5 := [Internet] + c6;
    var c4 := [Billboard] + c5;
    var c3 := [OutdoorStatic] + c4;
    var c2 := [Radio] + c3;
    var c1 := [Cinema] + c2;
    var c0 := [Tv] + c1;
    assert c0 == AllChannels;
    assert c8[1..] == [];
    assert WeightedSum(s, c8) == 0.5 * s.indoorTv + 0.0;
    assert c7[1..] == c8;
    assert c6[1..] == c7;
    assert c5[1..] == c6;
    assert c4[1..] == c5;
    assert c3[1..] == c4;
    assert c2[1..] == c3;
    assert c1[1..] == c2;
    assert c0[1..] == c1;
    assert WeightedSum(s, c7) == 0.5 * s.newspapers + WeightedSum(s, c8);
    assert WeightedSum(s, c6) == 0.5 * s.magazines + WeightedSum(s, c7);
    assert WeightedSum(s, c5) == 0.5 * s.internet + WeightedSum(s, c6);
    assert WeightedSum(s, c4) == 0.5 * s.billboard + WeightedSum(s, c5);
    assert WeightedSum(s, c3) == 0.5 * s.outdoorStatic + WeightedSum(s, c4);
    assert WeightedSum(s, c2) == 0.3 * s.radio + WeightedSum(s, c3);
    assert WeightedSum(s, c1) == 0.2 * s.cinema + WeightedSum(s, c2);
    assert WeightedSum(s, c0) == 0.2 * s.tv + WeightedSum(s, c1);
  }

  /** With no channel negative, the discounted sum lies between 0 and the gross sum. */
  lemma {:induction false} WeightedSumBounds(s: SpendingData, cs: seq<Channel>)
    requires ChannelsNonNegative(s)
    ensures 0.0 <= WeightedSum(s, cs) <= GrossSum(s, cs)
  {
    if cs != [] {
      WeightedSumBounds(s, cs[1..]);
      assert 0.0 <= Gross(s, cs[0]);
      assert 0.0 < Retention(cs[0]) <= 1.0;
      assert Retention(cs[0]) * Gross(s, cs[0]) <= Gross(s, cs[0]);
    }
  }

  /** The computed net of a row without a manual figure is never negative and never above its gross. */
  lemma NetWithinGross(s: SpendingData)
    requires s.netTotal.None? && ChannelsNonNegative(s)
    ensures 0.0 <= CalculatedNetTotal(s) <= GrossSum(s, AllChannels)
  {
    WeightedSumBounds(s, AllChannels);
  }

  // ---------------------------------------------------------------------
  // Latest spending of an advertiser
  // ---------------------------------------------------------------------

  /**
   * `Advertiser.latest_spending_data`: among the rows of `advertiserId`,
   * one with the greatest year (the earliest such row in store order).
   */
  function LatestSpending(rows: seq<SpendingData>, advertiserId: nat): (r: Option<SpendingData>)
    ensures r.None? <==> forall k :: 0 <= k < |rows| ==> rows[k].advertiserId != advertiserId
    ensures r.Some? ==> r.value in rows && r.value.advertiserId == advertiserId
    ensures r.Some? ==> forall k :: 0 <= k < |rows| && rows[k].advertiserId == advertiserId ==> rows[k].year <= r.value.year
  {
    if rows == [] then None
    else
      var rest := LatestSpending(rows[1..], advertiserId);
      if rows[0].advertiserId != advertiserId then rest
      else if rest.Some? && rows[0].year < rest.value.year then rest
      else Some(rows[0])
  }

  /** `Advertiser.last_year_gross_spending`: the latest row's grand total, or 0 without rows. */
  function LastYearGrossSpending(rows: seq<SpendingData>, advertiserId: nat): (r: real)
    ensures (forall k :: 0 <= k < |rows| ==> rows[k].advertiserId != advertiserId) ==> r == 0.0
    ensures (exists k :: 0 <= k < |rows| && rows[k].advertiserId == advertiserId) ==>
      exists k :: 0 <= k < |rows| && rows[k].advertiserId == advertiserId && r == rows[k].grandTotal
        && forall j :: 0 <= j < |rows| && rows[j].advertiserId == advertiserId ==> rows[j].year <= rows[k].year
  {
    var latest := LatestSpending(rows, advertiserId);
    if latest.Some? then latest.value.grandTotal else 0.0
  }

  /** `Advertiser.last_year_net_spending`: the latest row's net figure, or 0 without rows. */
  function LastYearNetSpending(rows: seq<SpendingData>, advertiserId: nat): (r: real)
    ensures (forall k :: 0 <= k < |rows| ==> rows[k].advertiserId != advertiserId) ==> r == 0.0
    ensures (exists k :: 0 <= k < |rows| && rows[k].advertiserId == advertiserId) ==>
      exists k :: 0 <= k < |rows| && rows[k].advertiserId == advertiserId && r == CalculatedNetTotal(rows[k])
        && forall j :: 0 <= j < |rows| && rows[j].advertiserId == advertiserId ==> rows[j].year <= rows[k].year
  {
    var latest := LatestSpending(rows, advertiserId);
    if latest.Some? then CalculatedNetTotal(latest.value) else 0.0
  }

  // ---------------------------------------------------------------------
  // Contacts and their relationship notes
  // ---------------------------------------------------------------------

  /** `Contact.full_name` */
  function FullName(c: Contact): string
  {
    c.firstName + " " + c.lastName
  }

  const RelationshipPrefix: string := "Contact relationship established: "

  /** The text whose presence in an activity's description records a secondary relationship. */
  function RelationshipMarker(firstName: string, lastName: string): (m: string)
    ensures |m| == |RelationshipPrefix| + |firstName| + 1 + |lastName|
  {
    RelationshipPrefix + firstName + " " + lastName
  }

  /** The marker of a contact is the fixed prefix followed by its full name. */
  lemma MarkerIsPrefixedFullName(c: Contact)
    ensures RelationshipMarker(c.firstName, c.lastName) == RelationshipPrefix + FullName(c)
  {
  }

  /** The marker of one name can sit inside the marker of another: "Jo Smith" inside "Jo Smithson". */
  lemma MarkerOfLongerSurnameContainsShorter()
    ensures Contains(RelationshipMarker("Jo", "Smithson"), RelationshipMarker("Jo", "Smith"))
  {
    PrefixContained(RelationshipMarker("Jo", "Smithson"), RelationshipMarker("Jo", "Smith"));
  }

  predicate HasMarker(a: Activity, marker: string)
  {
    Contains(a.description, marker)
  }

  /** The activities whose description holds `marker`, in store order. */
  function WithMarker(acts: seq<Activity>, marker: string): (r: seq<Activity>)
    ensures |r| <= |acts|
    ensures forall a :: a in r <==> a in acts && HasMarker(a, marker)
  {
    if acts == [] then []
    else (if HasMarker(acts[0], marker) then [acts[0]] else []) + WithMarker(acts[1..], marker)
  }

  /** The activities whose description does not hold `marker`, in store order. */
  function WithoutMarker(acts: seq<Activity>, marker: string): (r: seq<Activity>)
    ensures |r| <= |acts|
    ensures forall a :: a in r <==> a in acts && !HasMarker(a, marker)
  {
    if acts == [] then []
    else (if HasMarker(acts[0], marker) then [] else [acts[0]]) + WithoutMarker(acts[1..], marker)
  }

  lemma {:induction false} WithMarkerConcat(a: seq<Activity>, b: seq<Activity>, marker: string)
    ensures WithMarker(a + b, marker) == WithMarker(a, marker) + WithMarker(b, marker)
  {
    if a != [] {
      assert (a + b)[1..] == a[1..] + b;
      WithMarkerConcat(a[1..], b, marker);
    } else {
      assert a + b == b;
    }
  }

  lemma {:induction false} WithoutMarkerConcat(a: seq<Activity>, b: seq<Activity>, marker: string)
    ensures WithoutMarker(a + b, marker) == WithoutMarker(a, marker) + WithoutMarker(b, marker)
  {
    if a != [] {
      assert (a + b)[1..] == a[1..] + b;
      WithoutMarkerConcat(a[1..], b, marker);
    } else {
      assert a + b == b;
    }
  }

  /** Filtering one more activity keeps it exactly when it lacks the marker. */
  lemma WithoutMarkerSnoc(acts: seq<Activity>, a: Activity, marker: string)
    ensures WithoutMarker(acts + [a], marker) == WithoutMarker(acts, marker) + (if HasMarker(a, marker) then [] else [a])
  {
    WithoutMarkerConcat(acts, [a], marker);
    assert [a][1..] == [];
  }

  /** Filtering out a marker twice is filtering it out once. */
  lemma {:induction false} WithoutMarkerIdempotent(acts: seq<Activity>, marker: string)
    ensures WithoutMarker(WithoutMarker(acts, marker), marker) == WithoutMarker(acts, marker)
    ensures WithMarker(WithoutMarker(acts, marker), marker) == []
  {
    if acts != [] {
      WithoutMarkerIdempotent(acts[1..], marker);
      var head := if HasMarker(acts[0], marker) then [] else [acts[0]];
      WithoutMarkerConcat(head, WithoutMarker(acts[1..], marker), marker);
      WithMarkerConcat(head, WithoutMarker(acts[1..], marker), marker);
    }
  }

  /** A sequence whose every description holds the marker is kept whole by `WithMarker` and dropped by `WithoutMarker`. */
  lemma {:induction false} AllMarked(acts: seq<Activity>, marker: string)
    requires forall k :: 0 <= k < |acts| ==> HasMarker(acts[k], marker)
    ensures WithMarker(acts, marker) == acts
    ensures WithoutMarker(acts, marker) == []
  {
    if acts != [] {
      AllMarked(acts[1..], marker);
    }
  }

  /** A sequence where no description holds the marker is dropped by `WithMarker` and kept whole by `WithoutMarker`. */
  lemma {:induction false} NoneMarked(acts: seq<Activity>, marker: string)
    requires forall k :: 0 <= k < |acts| ==> !HasMarker(acts[k], marker)
    ensures WithMarker(acts, marker) == []
    ensures WithoutMarker(acts, marker) == acts
  {
    if acts != [] {
      NoneMarked(acts[1..], marker);
    }
  }

  /** An advertiser the contact is linked to by a relationship note (other than its primary). */
  predicate LinkedByNote(c: Contact, activities: seq<Activity>, id: nat)
  {
    exists k :: 0 <= k < |activities| && activities[k].advertiserId == id
      && HasMarker(activities[k], RelationshipMarker(c.firstName, c.lastName))
      && c.advertiserId != Some(id)
  }

  predicate NoDuplicates(s: seq<nat>)
  {
    forall i, j :: 0 <= i < j < |s| ==> s[i] != s[j]
  }

  /**
   * `Contact.get_related_advertisers` over the first activities: the primary
   * advertiser first (if any), then each other advertiser named by one of the
   * contact's relationship notes, once, in activity order. Advertisers are
   * given by id.
   */
  function RelatedAdvertisers(c: Contact, activities: seq<Activity>): seq<nat>
    decreases |activities|
  {
    if activities == [] then (if c.advertiserId.Some? then [c.advertiserId.value] else [])
    else
      var related := RelatedAdvertisers(c, activities[..|activities| - 1]);
      var a := activities[|activities| - 1];
      if HasMarker(a, RelationshipMarker(c.firstName, c.lastName)) && c.advertiserId != Some(a.advertiserId)
         && a.advertiserId !in related
      then related + [a.advertiserId]
      else related
  }

  /** The related advertisers: the primary first, each once, and exactly the primary and those linked by a note. */
  lemma {:induction false} RelatedAdvertisersProperties(c: Contact, activities: seq<Activity>)
    ensures var r := RelatedAdvertisers(c, activities);
      && (c.advertiserId.Some? ==> |r| > 0 && r[0] == c.advertiserId.value)
      && NoDuplicates(r)
      && forall id :: id in r <==> c.advertiserId == Some(id) || LinkedByNote(c, activities, id)
    decreases |activities|
  {
    if activities != [] {
      var init := activities[..|activities| - 1];
      RelatedAdvertisersProperties(c, init);
      var a := activities[|activities| - 1];
      forall id ensures LinkedByNote(c, activities, id) <==>
        (LinkedByNote(c, init, id) || (a.advertiserId == id && HasMarker(a, RelationshipMarker(c.firstName, c.lastName)) && c.advertiserId != Some(id)))
      {
        if LinkedByNote(c, activities, id) {
          var k :| 0 <= k < |activities| && activities[k].advertiserId == id
            && HasMarker(activities[k], RelationshipMarker(c.firstName, c.lastName)) && c.advertiserId != Some(id);
          if k < |init| {
            assert init[k] == activities[k];
          }
        }
        if LinkedByNote(c, init, id) {
          var k :| 0 <= k < |init| && init[k].advertiserId == id
            && HasMarker(init[k], RelationshipMarker(c.firstName, c.lastName)) && c.advertiserId != Some(id);
          assert activities[k] == init[k];
        }
      }
    }
  }

  /** `Contact.get_related_advertisers` */
  method GetRelatedAdvertisers(c: Contact, activities: seq<Activity>) returns (related: seq<nat>)
    ensures related == RelatedAdvertisers(c, activities)
  {
    related := [];
    if c.advertiserId.Some? {
      related := related + [c.advertiserId.value];
    }
    var marker := RelationshipMarker(c.firstName, c.lastName);
    var k := 0;
    while k < |activities|
      invariant 0 <= k <= |activities|
      invariant related == RelatedAdvertisers(c, activities[..k])
    {
      var a := activities[k];
      assert activities[..k + 1][..k] == activities[..k];
      if HasMarker(a, marker) && c.advertiserId != Some(a.advertiserId) {
        if a.advertiserId !in related {
          related := related + [a.advertiserId];
        }
      }
      k := k + 1;
    }
    assert activities[..k] == activities;
  }

  // ---------------------------------------------------------------------
  // The store
  // ---------------------------------------------------------------------

  /** The ids of the given advertisers. */
  function Ids(advs: seq<Advertiser>): set<nat>
  {
    set a | a in advs :: a.id
  }

  /** No advertiser in `advs` is called `name`. */
  predicate NameFree(advs: seq<Advertiser>, name: string)
  {
    forall k :: 0 <= k < |advs| ==> advs[k].name != name
  }

  /** Advertiser names are unique (the `unique=True` column). */
  predicate NamesUnique(advs: seq<Advertiser>)
  {
    forall i, j :: 0 <= i < j < |advs| ==> advs[i].name != advs[j].name
  }

  /** Ids are positive, below the next id to hand out, and rise in store order. */
  predicate IdsOrdered(advs: seq<Advertiser>, nextId: nat)
  {
    && (forall i :: 0 <= i < |advs| ==> 1 <= advs[i].id < nextId)
    && (forall i, j :: 0 <= i < j < |advs| ==> advs[i].id < advs[j].id)
  }

  /** At most one spending row per (advertiser, year): the `_advertiser_year_uc` constraint. */
  predicate SpendingUnique(rows: seq<SpendingData>)
  {
    forall i, j :: 0 <= i < j < |rows| ==> rows[i].advertiserId != rows[j].advertiserId || rows[i].year != rows[j].year
  }

  predicate ContactRefsOk(contacts: seq<Contact>, ids: set<nat>)
  {
    forall k :: 0 <= k < |contacts| && contacts[k].advertiserId.Some? ==> contacts[k].advertiserId.value in ids
  }

  predicate ActivityRefsOk(acts: seq<Activity>, ids: set<nat>)
  {
    forall k :: 0 <= k < |acts| ==> acts[k].advertiserId in ids
  }

  predicate SpendingRefsOk(rows: seq<SpendingData>, ids: set<nat>)
  {
    forall k :: 0 <= k < |rows| ==> rows[k].advertiserId in ids
  }

  /** The whole store as a value. Rows are kept in id order, so "first" means lowest id. */
  datatype DB = DB(
    advertisers: seq<Advertiser>,
    contacts: seq<Contact>,
    activities: seq<Activity>,
    spending: seq<SpendingData>,
    nextAdvertiserId: nat)
  {
    /** The schema's constraints: unique names, ordered ids, foreign keys, one row per (advertiser, year). */
    ghost predicate Valid()
    {
      && 1 <= nextAdvertiserId
      && IdsOrdered(advertisers, nextAdvertiserId)
      && NamesUnique(advertisers)
      && ContactRefsOk(contacts, Ids(advertisers))
      && ActivityRefsOk(activities, Ids(advertisers))
      && SpendingRefsOk(spending, Ids(advertisers))
      && SpendingUnique(spending)
    }

    /** Insert an advertiser; it gets the next id. */
    function WithAdvertiser(name: string, agency: Option<string>, status: LeadStatus): (r: DB)
      ensures Valid() && NameFree(advertisers, name) ==> r.Valid()
      ensures r.advertisers == advertisers + [Advertiser(nextAdvertiserId, name, agency, status)]
      ensures Ids(r.advertisers) == Ids(advertisers) + {nextAdvertiserId}
    {
      var a := Advertiser(nextAdvertiserId, name, agency, status);
      assert Ids(advertisers + [a]) == Ids(advertisers) + {a.id} by {
        forall x ensures x in Ids(advertisers + [a]) <==> x in Ids(advertisers) + {a.id} {
          if x in Ids(advertisers + [a]) {
            var b :| b in advertisers + [a] && b.id == x;
          }
          if x in Ids(advertisers) {
            var b :| b in advertisers && b.id == x;
            assert b in advertisers + [a];
          }
          assert a in advertisers + [a];
        }
      }
      this.(advertisers := advertisers + [a], nextAdvertiserId := nextAdvertiserId + 1)
    }

    /** Insert an activity. */
    function WithActivity(a: Activity): (r: DB)
      ensures Valid() && a.advertiserId in Ids(advertisers) ==> r.Valid()
    {
      this.(activities := activities + [a])
    }

    /** Insert a contact. */
    function WithContact(c: Contact): (r: DB)
      ensures Valid() && (c.advertiserId.Some? ==> c.advertiserId.value in Ids(advertisers)) ==> r.Valid()
    {
      this.(contacts := contacts + [c])
    }
  }

  /**
   * How a sync routine ends: its changes are committed, or it raises and
   * the session is rolled back, leaving the store as it was.
   */
  datatype Outcome = Ok(db: DB) | Raised(error: string)

  /** The ids of a sequence whose entry `k` is replaced by one with the same id are unchanged. */
  lemma IdsUpdate(advs: seq<Advertiser>, k: nat, a: Advertiser)
    requires k < |advs| && a.id == advs[k].id
    ensures Ids(advs[k := a]) == Ids(advs)
  {
    forall x ensures x in Ids(advs[k := a]) <==> x in Ids(advs) {
      if x in Ids(advs[k := a]) {
        var b :| b in advs[k := a] && b.id == x;
        var j :| 0 <= j < |advs| && advs[k := a][j] == b;
        IdAt(advs, j);
      }
      if x in Ids(advs) {
        var b :| b in advs && b.id == x;
        var j :| 0 <= j < |advs| && advs[j] == b;
        IdAt(advs[k := a], j);
      }
    }
  }

  /** An advertiser's position in the store gives its id in the id set. */
  lemma IdAt(advs: seq<Advertiser>, k: nat)
    requires k < |advs|
    ensures advs[k].id in Ids(advs)
  {
    assert advs[k] in advs;
  }

  /**
   * The database session: the four tables as sequences that the sync code
   * updates in place, plus the next advertiser id.
   */
  class Store {
    var advertisers: seq<Advertiser>
    var contacts: seq<Contact>
    var activities: seq<Activity>
    var spending: seq<SpendingData>
    var nextAdvertiserId: nat

    function Value(): DB
      reads this
    {
      DB(advertisers, contacts, activities, spending, nextAdvertiserId)
    }

    ghost predicate Valid()
      reads this
    {
      Value().Valid()
    }

    constructor ()
      ensures Valid()
      ensures Value() == DB([], [], [], [], 1)
    {
      advertisers, contacts, activities, spending := [], [], [], [];
      nextAdvertiserId := 1;
    }

    /** `session.add(Advertiser(...))` followed by a flush: the row gets the next id. */
    method AddAdvertiser(name: string, agency: Option<string>, status: LeadStatus) returns (id: nat)
      requires Valid() && NameFree(advertisers, name)
      modifies this
      ensures Valid()
      ensures id == old(nextAdvertiserId)
      ensures Value() == old(Value()).WithAdvertiser(name, agency, status)
    {
      ghost var before := Value();
      id := nextAdvertiserId;
      advertisers := advertisers + [Advertiser(id, name, agency, status)];
      nextAdvertiserId := nextAdvertiserId + 1;
      assert Value() == before.WithAdvertiser(name, agency, status);
    }

    /** `session.add(Activity(...))` */
    method AddActivity(a: Activity)
      requires Valid() && a.advertiserId in Ids(advertisers)
      modifies this
      ensures Valid()
      ensures Value() == old(Value()).WithActivity(a)
    {
      activities := activities + [a];
    }

    /** `session.add(Contact(...))` */
    method AddContact(c: Contact)
      requires Valid() && (c.advertiserId.Some? ==> c.advertiserId.value in Ids(advertisers))
      modifies this
      ensures Valid()
      ensures Value() == old(Value()).WithContact(c)
    {
      contacts := contacts + [c];
    }

    /** `db.session.commit()`: the pending changes, gathered into `d`, become the stored tables. */
    method Commit(d: DB)
      requires d.Valid()
      modifies this
      ensures Valid()
      ensures Value() == d
    {
      advertisers, contacts, activities, spending := d.advertisers, d.contacts, d.activities, d.spending;
      nextAdvertiserId := d.nextAdvertiserId;
    }
  }
}
