/**
 * Outgoing notifications (app/webhook_helper.py): which configured webhooks
 * an event is sent to, the signature each request carries, the one log row
 * each attempt leaves behind, and the payload of a contact update.
 *
 * The HTTP call is a function parameter from the request to its outcome
 * (a response or an exception), the JSON encoder and SHA-256 are function
 * parameters, and the clock reading is a string parameter.
 */
module WebhookHelper {

  import opened Common
  import opened Text
  import opened Models
  import opened Resolver
  import opened IntegrationRoutes

  /** A row of the `webhook` table. */
  datatype Webhook = Webhook(id: nat, url: string, events: seq<string>, secret: string, isActive: bool)

  /** A POST as it goes out: the URL, the two headers and the JSON body. */
  datatype Request = Request(url: string, event: string, signature: string, body: string)

  /** What a POST ends in: a response with its status and text, or an exception with its message. */
  datatype Delivery = Delivered(status: int, text: string) | Failed(message: string)

  /** A row of the `webhook_log` table; the time stamp is left out. */
  datatype WebhookLog<D> = WebhookLog(webhookId: nat, event: string, payload: D, responseStatus: int, responseBody: string)

  /** The longest response text a log keeps. */
  const MaxLoggedBody: nat := 1000

  // ---------------------------------------------------------------------
  // Selection
  // ---------------------------------------------------------------------

  predicate Subscribes(w: Webhook, event: string)
  {
    w.isActive && event in w.events
  }

  /** The webhooks called for `event`: the active ones listing it, in table order. */
  function Subscribed(hooks: seq<Webhook>, event: string): (r: seq<Webhook>)
    ensures |r| <= |hooks|
    ensures forall w :: w in r <==> w in hooks && Subscribes(w, event)
    decreases |hooks|
  {
    if hooks == [] then []
    else
      var w := hooks[|hooks| - 1];
      Subscribed(hooks[..|hooks| - 1], event) + (if Subscribes(w, event) then [w] else [])
  }

  /** Webhook ids are unique (the primary key). */
  predicate IdsDistinct(hooks: seq<Webhook>)
  {
    forall i, j :: 0 <= i < j < |hooks| ==> hooks[i].id != hooks[j].id
  }

  /** Selection keeps ids unique. */
  lemma {:induction false} SubscribedDistinct(hooks: seq<Webhook>, event: string)
    requires IdsDistinct(hooks)
    ensures IdsDistinct(Subscribed(hooks, event))
    decreases |hooks|
  {
    if hooks != [] {
      var init := hooks[..|hooks| - 1];
      var w := hooks[|hooks| - 1];
      SubscribedDistinct(init, event);
      var r := Subscribed(init, event);
      forall i | 0 <= i < |r| ensures r[i].id != w.id {
        assert r[i] in init;
        var k :| 0 <= k < |init| && init[k] == r[i];
        assert hooks[k] == r[i];
      }
    }
  }

  /** The selection loop of `trigger_webhooks`. */
  method SelectWebhooks(hooks: seq<Webhook>, event: string) returns (webhooks: seq<Webhook>)
    ensures webhooks == Subscribed(hooks, event)
  {
    webhooks := [];
    var i := 0;
    while i < |hooks|
      invariant 0 <= i <= |hooks|
      invariant webhooks == Subscribed(hooks[..i], event)
    {
      assert hooks[..i + 1][..i] == hooks[..i];
      if hooks[i].isActive && event in hooks[i].events {
        webhooks := webhooks + [hooks[i]];
      }
      i := i + 1;
    }
    assert hooks[..i] == hooks;
  }

  // ---------------------------------------------------------------------
  // Signing and logging
  // ---------------------------------------------------------------------

  /** The `X-Webhook-Signature` header: the hex SHA-256 of the secret followed by the JSON text. */
  function Signature(hash: string -> string, secret: string, body: string): string
  {
    hash(secret + body)
  }

  /** A receiver holding the same secret accepts what was sent: the inbound check is the same construction. */
  lemma SignatureVerifies(hash: string -> string, secret: string, body: string)
    ensures VerifyWebhookSignature(hash, body, Signature(hash, secret, body), secret)
  {
  }

  function RequestFor(w: Webhook, event: string, body: string, hash: string -> string): Request
  {
    Request(w.url, event, Signature(hash, w.secret, body), body)
  }

  /** The log row of one attempt: the response status and at most 1000 characters of its text, or status 0 and the error. */
  function LogFor<D>(w: Webhook, event: string, data: D, d: Delivery): (log: WebhookLog<D>)
    ensures log.webhookId == w.id && log.event == event && log.payload == data
    ensures d.Delivered? ==> log.responseStatus == d.status && log.responseBody <= d.text
                             && |log.responseBody| == if |d.text| <= MaxLoggedBody then |d.text| else MaxLoggedBody
    ensures d.Failed? ==> log.responseStatus == 0 && log.responseBody == "Error: " + d.message
  {
    match d
    case Delivered(status, text) => WebhookLog(w.id, event, data, status, Truncate(text, MaxLoggedBody))
    case Failed(message) => WebhookLog(w.id, event, data, 0, "Error: " + message)
  }

  /** The requests sent to `ws`, one each, in order. */
  function Requests(ws: seq<Webhook>, event: string, body: string, hash: string -> string): (r: seq<Request>)
    ensures |r| == |ws|
    ensures forall i :: 0 <= i < |ws| ==> r[i].url == ws[i].url && r[i].event == event && r[i].body == body
                                          && VerifyWebhookSignature(hash, body, r[i].signature, ws[i].secret)
    decreases |ws|
  {
    if ws == [] then [] else Requests(ws[..|ws| - 1], event, body, hash) + [RequestFor(ws[|ws| - 1], event, body, hash)]
  }

  /** The log rows the calls to `ws` leave, one per webhook, in order; an exception does not stop the loop. */
  function Dispatched<D>(ws: seq<Webhook>, event: string, data: D, body: string, hash: string -> string,
                         post: Request -> Delivery): (r: seq<WebhookLog<D>>)
    ensures |r| == |ws|
    ensures forall i :: 0 <= i < |ws| ==> r[i] == LogFor(ws[i], event, data, post(RequestFor(ws[i], event, body, hash)))
    decreases |ws|
  {
    if ws == [] then []
    else
      var w := ws[|ws| - 1];
      Dispatched(ws[..|ws| - 1], event, data, body, hash, post) + [LogFor(w, event, data, post(RequestFor(w, event, body, hash)))]
  }

  /**
   * One log row per subscribed webhook and none for any other: with unique
   * webhook ids, a webhook has a log row exactly when it is active and
   * lists the event, and then exactly one.
   */
  lemma LogsExactlyForSubscribed<D>(hooks: seq<Webhook>, event: string, data: D, body: string,
                                    hash: string -> string, post: Request -> Delivery, h: Webhook)
    requires IdsDistinct(hooks) && h in hooks
    ensures var logs := Dispatched(Subscribed(hooks, event), event, data, body, hash, post);
      && ((exists i :: 0 <= i < |logs| && logs[i].webhookId == h.id) <==> Subscribes(h, event))
      && (Subscribes(h, event) ==> exists i :: 0 <= i < |logs| && logs[i].webhookId == h.id
                                      && forall j :: 0 <= j < |logs| && j != i ==> logs[j].webhookId != h.id)
  {
    var ws := Subscribed(hooks, event);
    var logs := Dispatched(ws, event, data, body, hash, post);
    forall i | 0 <= i < |logs| ensures logs[i].webhookId == h.id <==> ws[i] == h {
      LogOfWebhook(hooks, event, data, body, hash, post, h, i);
    }
    if Subscribes(h, event) {
      SubscribedDistinct(hooks, event);
      assert h in ws;
      var i :| 0 <= i < |ws| && ws[i] == h;
      assert logs[i].webhookId == h.id;
      forall j | 0 <= j < |logs| && j != i ensures logs[j].webhookId != h.id {
        assert ws[j] != ws[i] by {
          assert ws[j].id != ws[i].id;
        }
      }
    }
  }

  /** With unique ids, the log row at `i` belongs to `h` exactly when `h` is the `i`-th selected webhook. */
  lemma LogOfWebhook<D>(hooks: seq<Webhook>, event: string, data: D, body: string,
                        hash: string -> string, post: Request -> Delivery, h: Webhook, i: nat)
    requires IdsDistinct(hooks) && h in hooks && i < |Subscribed(hooks, event)|
    ensures Dispatched(Subscribed(hooks, event), event, data, body, hash, post)[i].webhookId == h.id
            <==> Subscribed(hooks, event)[i] == h
  {
    var ws := Subscribed(hooks, event);
    assert ws[i] in ws;
    var m :| 0 <= m < |hooks| && hooks[m] == ws[i];
    var k :| 0 <= k < |hooks| && hooks[k] == h;
    if ws[i].id == h.id {
      assert m == k;
    }
  }

  /** The `webhook_log` table. */
  class WebhookLogTable<D> {
    var logs: seq<WebhookLog<D>>

    constructor ()
      ensures logs == []
    {
      logs := [];
    }
  }

  /**
   * `trigger_webhooks`: select, then for each selected webhook sign and
   * POST the JSON text and append (and commit) one log row. `sent` is
   * the requests that went out.
   */
  method TriggerWebhooks<D>(table: WebhookLogTable<D>, hooks: seq<Webhook>, event: string, data: D,
                            dumps: D -> string, hash: string -> string, post: Request -> Delivery)
    returns (sent: seq<Request>)
    modifies table
    ensures sent == Requests(Subscribed(hooks, event), event, dumps(data), hash)
    ensures table.logs == old(table.logs) + Dispatched(Subscribed(hooks, event), event, data, dumps(data), hash, post)
  {
    var webhooks := SelectWebhooks(hooks, event);
    var body := dumps(data);
    sent := [];
    var i := 0;
    while i < |webhooks|
      invariant 0 <= i <= |webhooks|
      invariant sent == Requests(webhooks[..i], event, body, hash)
      invariant table.logs == old(table.logs) + Dispatched(webhooks[..i], event, data, body, hash, post)
    {
      var w := webhooks[i];
      assert webhooks[..i + 1][..i] == webhooks[..i];
      var request := Request(w.url, event, hash(w.secret + body), body);
      sent := sent + [request];
      var log: WebhookLog<D>;
      match post(request) {
        case Delivered(status, text) =>
          log := WebhookLog(w.id, event, data, status, Truncate(text, MaxLoggedBody));
        case Failed(message) =>
          log := WebhookLog(w.id, event, data, 0, "Error: " + message);
      }
      table.logs := table.logs + [log];
      i := i + 1;
    }
    assert webhooks[..i] == webhooks;
  }

  // ---------------------------------------------------------------------
  // The contact update notification
  // ---------------------------------------------------------------------

  /** One entry of `brands`: the advertiser's id (as the brand id) and its name. */
  datatype BrandRef = BrandRef(id: nat, name: string)

  /** The body of a `contact.updated` notification; `updatedAt` is the clock reading in ISO form. */
  datatype ContactUpdate = ContactUpdate(
    id: Option<int>,
    firstName: string,
    lastName: string,
    email: Option<string>,
    phone: Option<string>,
    linkedinUrl: Option<string>,
    brands: seq<BrandRef>,
    updatedAt: string)

  /** The position of the stored advertiser with id `id`. */
  function AdvertiserWithId(advs: seq<Advertiser>, id: nat): (k: nat)
    requires id in Ids(advs)
    ensures k < |advs| && advs[k].id == id
  {
    var a :| a in advs && a.id == id;
    assert exists k :: 0 <= k < |advs| && advs[k] == a;
    First(advs, (b: Advertiser) => b.id == id).value
  }

  /** The brands of the payload: one {id, name} per related advertiser, in the same order. */
  function BrandsOf(advs: seq<Advertiser>, related: seq<nat>): (r: seq<BrandRef>)
    requires forall id :: id in related ==> id in Ids(advs)
    ensures |r| == |related|
    ensures forall i :: 0 <= i < |r| ==> r[i].id == related[i] && exists k :: 0 <= k < |advs| && advs[k].id == related[i] && advs[k].name == r[i].name
  {
    seq(|related|, i requires 0 <= i < |related| => BrandRef(related[i], advs[AdvertiserWithId(advs, related[i])].name))
  }

  /** The loop of `notify_contact_updated` over the related advertisers. */
  method CollectBrands(advs: seq<Advertiser>, related: seq<nat>) returns (brands: seq<BrandRef>)
    requires forall id :: id in related ==> id in Ids(advs)
    ensures brands == BrandsOf(advs, related)
  {
    brands := [];
    var i := 0;
    while i < |related|
      invariant 0 <= i <= |related|
      invariant brands == BrandsOf(advs, related[..i])
    {
      assert related[i] in related;
      brands := brands + [BrandRef(related[i], advs[AdvertiserWithId(advs, related[i])].name)];
      i := i + 1;
    }
    assert related[..i] == related;
  }

  /** Every advertiser a stored contact is related to is stored. */
  lemma RelatedAreStored(db: DB, c: Contact)
    requires db.Valid() && c in db.contacts
    ensures forall id :: id in RelatedAdvertisers(c, db.activities) ==> id in Ids(db.advertisers)
  {
    RelatedAdvertisersProperties(c, db.activities);
    forall id | id in RelatedAdvertisers(c, db.activities) ensures id in Ids(db.advertisers) {
      if c.advertiserId == Some(id) {
        var j :| 0 <= j < |db.contacts| && db.contacts[j] == c;
      } else {
        var k :| 0 <= k < |db.activities| && db.activities[k].advertiserId == id
          && HasMarker(db.activities[k], RelationshipMarker(c.firstName, c.lastName)) && c.advertiserId != Some(id);
      }
    }
  }

  /** The payload `notify_contact_updated` sends for a stored contact. */
  function ContactUpdateOf(db: DB, c: Contact, now: string): (data: ContactUpdate)
    requires db.Valid() && c in db.contacts
    ensures data.id == c.agencyCrmId && data.email == c.email
    ensures data.firstName == c.firstName && data.lastName == c.lastName
    ensures |data.brands| == |RelatedAdvertisers(c, db.activities)|
    ensures forall i :: 0 <= i < |data.brands| ==> data.brands[i].id == RelatedAdvertisers(c, db.activities)[i]
  {
    RelatedAreStored(db, c);
    ContactUpdate(c.agencyCrmId, c.firstName, c.lastName, c.email, c.phone, c.linkedinUrl,
                  BrandsOf(db.advertisers, RelatedAdvertisers(c, db.activities)), now)
  }

  /**
   * The brands of a contact update: the primary advertiser first, each
   * related advertiser once, exactly the primary and those linked by a
   * relationship note, each under its stored name.
   */
  lemma ContactUpdateBrands(db: DB, c: Contact, now: string)
    requires db.Valid() && c in db.contacts
    ensures var b := ContactUpdateOf(db, c, now).brands;
      && (c.advertiserId.Some? ==> |b| > 0 && b[0].id == c.advertiserId.value)
      && (forall i, j :: 0 <= i < j < |b| ==> b[i].id != b[j].id)
      && (forall id :: (exists i :: 0 <= i < |b| && b[i].id == id) <==> c.advertiserId == Some(id) || LinkedByNote(c, db.activities, id))
      && (forall i :: 0 <= i < |b| ==> exists k :: 0 <= k < |db.advertisers| && db.advertisers[k] == Advertiser(b[i].id, b[i].name, db.advertisers[k].currentAgency, db.advertisers[k].leadStatus))
  {
    var r := RelatedAdvertisers(c, db.activities);
    RelatedAdvertisersProperties(c, db.activities);
    RelatedAreStored(db, c);
    var b := ContactUpdateOf(db, c, now).brands;
    forall id ensures (exists i :: 0 <= i < |b| && b[i].id == id) <==> id in r {
      if id in r {
        var i :| 0 <= i < |r| && r[i] == id;
        assert b[i].id == id;
      }
    }
  }

  /** `notify_contact_updated`: the payload for the contact, sent as event 'contact.updated'. */
  method NotifyContactUpdated(table: WebhookLogTable<ContactUpdate>, db: DB, c: Contact, hooks: seq<Webhook>, now: string,
                              dumps: ContactUpdate -> string, hash: string -> string, post: Request -> Delivery)
    returns (data: ContactUpdate, sent: seq<Request>)
    requires db.Valid() && c in db.contacts
    modifies table
    ensures data == ContactUpdateOf(db, c, now)
    ensures sent == Requests(Subscribed(hooks, "contact.updated"), "contact.updated", dumps(data), hash)
    ensures table.logs == old(table.logs) + Dispatched(Subscribed(hooks, "contact.updated"), "contact.updated", data, dumps(data), hash, post)
  {
    var related := GetRelatedAdvertisers(c, db.activities);
    RelatedAreStored(db, c);
    var brands := CollectBrands(db.advertisers, related);
    data := ContactUpdate(c.agencyCrmId, c.firstName, c.lastName, c.email, c.phone, c.linkedinUrl, brands, now);
    sent := TriggerWebhooks(table, hooks, "contact.updated", data, dumps, hash, post);
  }
}
