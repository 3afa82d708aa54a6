/**
 * First-match lookups. Every sync path turns an external name into an
 * advertiser with "the first advertiser (lowest id) whose name contains
 * the candidate"; exact-name upserts use equality instead. Contacts are
 * looked up the same way by CRM id, email or name.
 */
module Resolver {

  import opened Common
  import opened Text
  import opened Models

  /** The position of the first element satisfying `p`, if any. */
  function First<T>(s: seq<T>, p: T -> bool): (r: Option<nat>)
    ensures r.Some? ==> r.value < |s| && p(s[r.value])
    ensures r.Some? ==> forall k :: 0 <= k < r.value ==> !p(s[k])
    ensures r.None? <==> forall k :: 0 <= k < |s| ==> !p(s[k])
  {
    if s == [] then None
    else if p(s[0]) then Some(0)
    else
      match First(s[1..], p)
      case None => None
      case Some(i) => Some(i + 1)
  }

  /** The first position satisfying `p` is unique: any position that satisfies `p` with none before it is it. */
  lemma FirstIsUnique<T>(s: seq<T>, p: T -> bool, i: nat)
    requires i < |s| && p(s[i])
    requires forall k :: 0 <= k < i ==> !p(s[k])
    ensures First(s, p) == Some(i)
  {
  }

  /** `Advertiser.query.filter_by(name=name).first()` */
  function ByName(advs: seq<Advertiser>, name: string): (r: Option<nat>)
    ensures r.Some? ==> r.value < |advs| && advs[r.value].name == name
    ensures r.None? <==> NameFree(advs, name)
  {
    First(advs, (a: Advertiser) => a.name == name)
  }

  /**
   * `Advertiser.query.filter(Advertiser.name.contains(s)).first()`; a
   * candidate that is Python's None matches nothing.
   */
  function ByContaining(advs: seq<Advertiser>, s: Option<string>): (r: Option<nat>)
    ensures s.None? ==> r.None?
    ensures r.Some? ==> r.value < |advs| && Contains(advs[r.value].name, s.value)
    ensures r.Some? ==> forall k :: 0 <= k < r.value ==> !Contains(advs[k].name, s.value)
    ensures s.Some? && r.None? ==> forall k :: 0 <= k < |advs| ==> !Contains(advs[k].name, s.value)
  {
    match s
    case None => None
    case Some(x) => First(advs, (a: Advertiser) => Contains(a.name, x))
  }

  /** The id of the advertiser `ByContaining` finds. */
  function ResolveId(advs: seq<Advertiser>, s: Option<string>): (r: Option<nat>)
    ensures r.Some? <==> ByContaining(advs, s).Some?
    ensures r.Some? ==> r.value == advs[ByContaining(advs, s).value].id
  {
    match ByContaining(advs, s)
    case None => None
    case Some(k) => Some(advs[k].id)
  }

  lemma ContainsItself(s: string)
    ensures Contains(s, s)
  {
    PrefixContained(s, s);
  }

  /**
   * The containment lookup never lands after an exact match: a stored name
   * equal to the candidate also contains it, so an earlier containing name
   * may win.
   */
  lemma ExactMatchIsContaining(advs: seq<Advertiser>, name: string)
    requires ByName(advs, name).Some?
    ensures ByContaining(advs, Some(name)).Some?
    ensures ByContaining(advs, Some(name)).value <= ByName(advs, name).value
  {
    var k := ByName(advs, name).value;
    ContainsItself(advs[k].name);
  }

  /** The empty candidate (a missing `brand_name`) resolves to the very first advertiser. */
  lemma EmptyCandidateResolvesFirst(advs: seq<Advertiser>)
    requires advs != []
    ensures ByContaining(advs, Some("")) == Some(0)
  {
    PrefixContained(advs[0].name, "");
  }

  /** With unique names, the exact lookup of a stored name finds exactly that advertiser. */
  lemma ByNameOfStoredName(advs: seq<Advertiser>, k: nat)
    requires k < |advs| && NamesUnique(advs)
    ensures ByName(advs, advs[k].name) == Some(k)
  {
    FirstIsUnique(advs, (a: Advertiser) => a.name == advs[k].name, k);
  }

  /** A resolved id belongs to a stored advertiser. */
  lemma ResolvedIdStored(advs: seq<Advertiser>, s: Option<string>)
    requires ResolveId(advs, s).Some?
    ensures ResolveId(advs, s).value in Ids(advs)
  {
    IdAt(advs, ByContaining(advs, s).value);
  }

  // ---------------------------------------------------------------------
  // Contact lookups
  // ---------------------------------------------------------------------

  /** `Contact.query.filter_by(agency_crm_id=id).first()` */
  function ContactByCrmId(contacts: seq<Contact>, id: Option<int>): (r: Option<nat>)
    ensures r.Some? ==> r.value < |contacts| && contacts[r.value].agencyCrmId == id
    ensures r.Some? ==> forall k :: 0 <= k < r.value ==> contacts[k].agencyCrmId != id
    ensures r.None? <==> forall k :: 0 <= k < |contacts| ==> contacts[k].agencyCrmId != id
  {
    First(contacts, (c: Contact) => c.agencyCrmId == id)
  }

  /** `Contact.query.filter_by(email=email).first()` */
  function ContactByEmail(contacts: seq<Contact>, email: Option<string>): (r: Option<nat>)
    ensures r.Some? ==> r.value < |contacts| && contacts[r.value].email == email
    ensures r.Some? ==> forall k :: 0 <= k < r.value ==> contacts[k].email != email
    ensures r.None? <==> forall k :: 0 <= k < |contacts| ==> contacts[k].email != email
  {
    First(contacts, (c: Contact) => c.email == email)
  }

  /** `Contact.query.filter_by(first_name=first, last_name=last).first()` */
  function ContactByName(contacts: seq<Contact>, first: string, last: string): (r: Option<nat>)
    ensures r.Some? ==> r.value < |contacts| && contacts[r.value].firstName == first && contacts[r.value].lastName == last
    ensures r.Some? ==> forall k :: 0 <= k < r.value ==> contacts[k].firstName != first || contacts[k].lastName != last
    ensures r.None? <==> forall k :: 0 <= k < |contacts| ==> contacts[k].firstName != first || contacts[k].lastName != last
  {
    First(contacts, (c: Contact) => c.firstName == first && c.lastName == last)
  }

  /** `Contact.query.filter_by(advertiser_id=id, email=email).first()` */
  function ContactAt(contacts: seq<Contact>, advertiserId: nat, email: string): (r: Option<nat>)
    ensures r.Some? ==>
              r.value < |contacts| && contacts[r.value].advertiserId == Some(advertiserId)
              && contacts[r.value].email == Some(email)
    ensures r.None? <==> forall k :: 0 <= k < |contacts| ==>
      contacts[k].advertiserId != Some(advertiserId) || contacts[k].email != Some(email)
  {
    First(contacts, (c: Contact) => c.advertiserId == Some(advertiserId) && c.email == Some(email))
  }
}
