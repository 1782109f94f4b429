/** The CRM's handlers that change the stored collections: customer and
    order creation and updates, campaign creation and activation, the
    delivery-receipt callback and the vendor's outcome application. The four
    collections are maps from identifier to document, held by one `Store`
    object; `nextId` is the next identifier the store will hand out. Each
    handler answers with the HTTP status code it sends. */
module Crm {
  import opened Collections
  import opened Text
  import opened Models
  import opened RuleEngine
  import opened Delivery

  /** One `vendorService.sendMessage(id, recipient, message)` call made by activation. */
  datatype Dispatch = Dispatch(log: Id, recipient: string, message: string)

  /** `campaign.message.replace('{{name}}', customer.name)` */
  function Personalize(template: string, c: Customer): string
  {
    ReplaceFirst(template, "{{name}}", c.name)
  }

  /** Only the first `{{name}}` is replaced by the customer's name, a template
      without the placeholder is sent as it is, and a non-empty template
      gives a non-empty message for a customer with a name. */
  lemma PersonalizeReplacesFirstPlaceholder(template: string, c: Customer)
    ensures !Includes(template, "{{name}}") ==> Personalize(template, c) == template
    ensures forall i: nat :: OccursAt(template, "{{name}}", i) && (forall j :: 0 <= j < i ==> !OccursAt(template, "{{name}}", j))
              ==> Personalize(template, c) == template[..i] + c.name + template[i + 8..]
    ensures template != [] && c.name != [] ==> Personalize(template, c) != []
  {
    if !Includes(template, "{{name}}") {
      ReplaceFirstAbsent(template, "{{name}}", c.name);
    }
    forall i: nat | OccursAt(template, "{{name}}", i) && (forall j :: 0 <= j < i ==> !OccursAt(template, "{{name}}", j))
      ensures Personalize(template, c) == template[..i] + c.name + template[i + 8..]
    {
      ReplaceFirstAt(template, "{{name}}", c.name, i);
    }
    if template != [] && c.name != [] {
      ReplaceFirstNonEmpty(template, "{{name}}", c.name);
    }
  }

  /** `customer.phone || customer.email` */
  function Recipient(c: Customer): (r: string)
    ensures c.phone.Some? && c.phone.value != [] ==> r == c.phone.value
    ensures c.phone.None? || c.phone.value == [] ==> r == c.email
  {
    if c.phone.Some? && c.phone.value != [] then c.phone.value else c.email
  }

  /** The audience's documents, as `Customer.find` returns them. */
  function Members(aud: seq<Id>, customers: map<Id, Customer>): (ms: seq<Entry<Customer>>)
    requires forall i :: 0 <= i < |aud| ==> aud[i] in customers
    ensures |ms| == |aud|
    ensures forall i :: 0 <= i < |aud| ==> ms[i] == Entry(aud[i], customers[aud[i]])
  {
    seq(|aud|, i requires 0 <= i < |aud| => Entry(aud[i], customers[aud[i]]))
  }

  /** The log activation saves for one audience member. */
  function MemberLog(cid: Id, template: string, m: Entry<Customer>, now: int): CommLog
  {
    NewLog(cid, m.id, Personalize(template, m.doc), now)
  }

  /** The vendor hand-off for the member's log `lid`. */
  function MemberDispatch(template: string, m: Entry<Customer>, lid: Id): Dispatch
  {
    Dispatch(lid, Recipient(m.doc), Personalize(template, m.doc))
  }

  /** The logs activation saves for campaign `cid`, numbered from `first`. */
  function ActivationLogs(cid: Id, template: string, members: seq<Entry<Customer>>, first: nat, now: int)
    : map<Id, CommLog>
  {
    if members == [] then map[]
    else
      var n := |members| - 1;
      ActivationLogs(cid, template, members[..n], first, now)[first + n := MemberLog(cid, template, members[n], now)]
  }

  /** The vendor hand-offs matching `ActivationLogs`. */
  function ActivationDispatches(template: string, members: seq<Entry<Customer>>, first: nat): seq<Dispatch>
  {
    if members == [] then []
    else
      var n := |members| - 1;
      ActivationDispatches(template, members[..n], first) + [MemberDispatch(template, members[n], first + n)]
  }

  /** The logs are keyed by consecutive identifiers from `first`, the one at
      `first + i` being the `i`-th member's. */
  lemma {:induction false} ActivationLogsByMember(cid: Id, template: string, members: seq<Entry<Customer>>, first: nat,
                                                  now: int)
    ensures forall k :: k in ActivationLogs(cid, template, members, first, now) <==> first <= k < first + |members|
    ensures forall k :: k in ActivationLogs(cid, template, members, first, now) ==>
      ActivationLogs(cid, template, members, first, now)[k] == MemberLog(cid, template, members[k - first], now)
  {
    if members != [] {
      var n := |members| - 1;
      var prefix := members[..n];
      ActivationLogsByMember(cid, template, prefix, first, now);
      var m := ActivationLogs(cid, template, members, first, now);
      var m' := ActivationLogs(cid, template, prefix, first, now);
      assert m == m'[first + n := MemberLog(cid, template, members[n], now)];
      forall k | k in m
        ensures m[k] == MemberLog(cid, template, members[k - first], now)
      {
        if k != first + n {
          assert m[k] == m'[k] && prefix[k - first] == members[k - first];
        }
      }
    }
  }

  /** Activation saves exactly one log per member, under consecutive
      identifiers from `first`: each is pending, has no failure reason, and
      belongs to the campaign and the member, with the member's personalised
      message. */
  lemma ActivationLogsShape(cid: Id, template: string, members: seq<Entry<Customer>>, first: nat, now: int)
    ensures forall k :: k in ActivationLogs(cid, template, members, first, now) <==> first <= k < first + |members|
    ensures forall k :: k in ActivationLogs(cid, template, members, first, now) ==>
      var l := ActivationLogs(cid, template, members, first, now)[k];
      && l.status == Pending && l.failureReason.None? && l.campaign == cid && l.sentAt == now
      && l.customer == members[k - first].id
      && l.message == Personalize(template, members[k - first].doc)
  {
    ActivationLogsByMember(cid, template, members, first, now);
  }

  /** The hand-offs go out in audience order, one per log, to the member's
      phone or else email, with the same personalised message. */
  lemma {:induction false} ActivationDispatchesShape(template: string, members: seq<Entry<Customer>>, first: nat)
    ensures |ActivationDispatches(template, members, first)| == |members|
    ensures forall i :: 0 <= i < |members| ==>
      ActivationDispatches(template, members, first)[i] ==
        Dispatch(first + i, Recipient(members[i].doc), Personalize(template, members[i].doc))
  {
    if members != [] {
      var n := |members| - 1;
      var prefix := members[..n];
      ActivationDispatchesShape(template, prefix, first);
      var ds := ActivationDispatches(template, members, first);
      var ds' := ActivationDispatches(template, prefix, first);
      assert ds == ds' + [MemberDispatch(template, members[n], first + n)];
      forall i | 0 <= i < n
        ensures ds[i] == ds'[i] && prefix[i] == members[i]
      {
      }
    }
  }

  /** Every saved log carries a non-empty message when the template and the
      members' names are non-empty, so none of the saves is refused. */
  lemma ActivationMessagesNonEmpty(cid: Id, template: string, members: seq<Entry<Customer>>, first: nat, now: int)
    requires forall i :: 0 <= i < |members| ==> members[i].doc.name != []
    requires template != []
    ensures forall k :: k in ActivationLogs(cid, template, members, first, now) ==>
      ActivationLogs(cid, template, members, first, now)[k].message != []
  {
    ActivationLogsByMember(cid, template, members, first, now);
    forall k | k in ActivationLogs(cid, template, members, first, now)
      ensures ActivationLogs(cid, template, members, first, now)[k].message != []
    {
      MemberLogNonEmpty(cid, template, members[k - first], now);
    }
  }

  /** The log saved for one named member has a non-empty message. */
  lemma MemberLogNonEmpty(cid: Id, template: string, m: Entry<Customer>, now: int)
    requires template != [] && m.doc.name != []
    ensures MemberLog(cid, template, m, now).message != []
  {
    PersonalizeReplacesFirstPlaceholder(template, m.doc);
  }

  /** One loop step of activation: the logs and hand-offs for a prefix of the
      members one longer. */
  lemma ActivationStep(logs: map<Id, CommLog>, cid: Id, template: string, members: seq<Entry<Customer>>,
                       first: nat, now: int, i: nat)
    requires i < |members|
    ensures logs + ActivationLogs(cid, template, members[..i + 1], first, now) ==
      (logs + ActivationLogs(cid, template, members[..i], first, now))[first + i := MemberLog(cid, template, members[i], now)]
    ensures ActivationDispatches(template, members[..i + 1], first) ==
      ActivationDispatches(template, members[..i], first) + [MemberDispatch(template, members[i], first + i)]
  {
    assert members[..i + 1][..i] == members[..i];
    UnionUpdate(logs, ActivationLogs(cid, template, members[..i], first, now), first + i,
                MemberLog(cid, template, members[i], now));
  }

  /** No two customers share an email (the unique index on `email`). */
  ghost predicate EmailsUnique(customers: map<Id, Customer>)
  {
    forall a, b :: a in customers && b in customers && customers[a].email == customers[b].email ==> a == b
  }

  /** Some customer other than `except` already uses `email`. */
  predicate EmailTaken(customers: map<Id, Customer>, email: string, except: Option<Id>)
  {
    exists k :: k in customers && customers[k].email == email && Some(k) != except
  }

  const DeliveryFailedReason: string := "Delivery failed to recipient"

  /** What `sendMessage` resolves to. */
  datatype VendorResult = VendorResult(success: bool, receiptProcessed: bool)

  /** Which of `sendMessage`'s four store calls, if any, throws. */
  datatype StoreFault = NoFault | FindLogFails | SaveLogFails | FindCampaignFails | SaveCampaignFails

  /** Every identifier in use (as a key, or as a log's campaign) is below
      `next`; stored customer names, campaign messages and log messages are
      non-empty, as their schemas require; emails are unique. */
  ghost predicate StoreInvariant(customers: map<Id, Customer>, orders: map<Id, Order>, campaigns: map<Id, Campaign>,
                                 logs: map<Id, CommLog>, next: nat)
  {
    && (forall k :: k in customers ==> k < next)
    && (forall k :: k in orders ==> k < next)
    && (forall k :: k in campaigns ==> k < next)
    && (forall k :: k in logs ==> k < next && logs[k].campaign < next)
    && (forall k :: k in customers ==> customers[k].name != [])
    && (forall k :: k in campaigns ==> campaigns[k].message != [])
    && (forall k :: k in logs ==> logs[k].message != [])
    && EmailsUnique(customers)
  }

  // The invariant under each kind of update the handlers make.

  lemma AddCustomerKeepsInvariant(customers: map<Id, Customer>, orders: map<Id, Order>, campaigns: map<Id, Campaign>,
                                  logs: map<Id, CommLog>, next: nat, c: Customer)
    requires StoreInvariant(customers, orders, campaigns, logs, next)
    requires c.name != [] && forall k :: k in customers ==> customers[k].email != c.email
    ensures StoreInvariant(customers[next := c], orders, campaigns, logs, next + 1)
  {
  }

  lemma ReplaceCustomerKeepsInvariant(customers: map<Id, Customer>, orders: map<Id, Order>, campaigns: map<Id, Campaign>,
                                      logs: map<Id, CommLog>, next: nat, id: Id, c: Customer)
    requires StoreInvariant(customers, orders, campaigns, logs, next)
    requires id in customers && c.name != []
    requires forall k :: k in customers && k != id ==> customers[k].email != c.email
    ensures StoreInvariant(customers[id := c], orders, campaigns, logs, next)
  {
  }

  lemma RemoveCustomerKeepsInvariant(customers: map<Id, Customer>, orders: map<Id, Order>, campaigns: map<Id, Campaign>,
                                     logs: map<Id, CommLog>, next: nat, id: Id)
    requires StoreInvariant(customers, orders, campaigns, logs, next)
    ensures StoreInvariant(customers - {id}, orders, campaigns, logs, next)
  {
  }

  lemma AddOrderKeepsInvariant(customers: map<Id, Customer>, orders: map<Id, Order>, campaigns: map<Id, Campaign>,
                               logs: map<Id, CommLog>, next: nat, o: Order, cid: Id, c: Customer)
    requires StoreInvariant(customers, orders, campaigns, logs, next)
    requires cid in customers && c.name == customers[cid].name && c.email == customers[cid].email
    ensures StoreInvariant(customers[cid := c], orders[next := o], campaigns, logs, next + 1)
  {
  }

  lemma ReplaceOrderKeepsInvariant(customers: map<Id, Customer>, orders: map<Id, Order>, campaigns: map<Id, Campaign>,
                                   logs: map<Id, CommLog>, next: nat, id: Id, o: Order)
    requires StoreInvariant(customers, orders, campaigns, logs, next)
    requires id in orders
    ensures StoreInvariant(customers, orders[id := o], campaigns, logs, next)
  {
  }

  lemma AddCampaignKeepsInvariant(customers: map<Id, Customer>, orders: map<Id, Order>, campaigns: map<Id, Campaign>,
                                  logs: map<Id, CommLog>, next: nat, c: Campaign)
    requires StoreInvariant(customers, orders, campaigns, logs, next)
    requires c.message != []
    ensures StoreInvariant(customers, orders, campaigns[next := c], logs, next + 1)
  {
  }

  lemma ReplaceCampaignKeepsInvariant(customers: map<Id, Customer>, orders: map<Id, Order>, campaigns: map<Id, Campaign>,
                                      logs: map<Id, CommLog>, next: nat, id: Id, c: Campaign)
    requires StoreInvariant(customers, orders, campaigns, logs, next)
    requires id in campaigns && c.message == campaigns[id].message
    ensures StoreInvariant(customers, orders, campaigns[id := c], logs, next)
  {
  }

  lemma AddLogKeepsInvariant(customers: map<Id, Customer>, orders: map<Id, Order>, campaigns: map<Id, Campaign>,
                             logs: map<Id, CommLog>, next: nat, l: CommLog)
    requires StoreInvariant(customers, orders, campaigns, logs, next)
    requires l.campaign < next && l.message != []
    ensures StoreInvariant(customers, orders, campaigns, logs[next := l], next + 1)
  {
  }

  lemma ReplaceLogKeepsInvariant(customers: map<Id, Customer>, orders: map<Id, Order>, campaigns: map<Id, Campaign>,
                                 logs: map<Id, CommLog>, next: nat, id: Id, l: CommLog)
    requires StoreInvariant(customers, orders, campaigns, logs, next)
    requires id in logs && l.campaign == logs[id].campaign && l.message == logs[id].message
    ensures StoreInvariant(customers, orders, campaigns, logs[id := l], next)
  {
  }

  class Store {
    var customers: map<Id, Customer>
    var orders: map<Id, Order>
    var campaigns: map<Id, Campaign>
    var logs: map<Id, CommLog>
    var nextId: nat

    /** The store invariant over the current collections. */
    ghost predicate Valid()
      reads this
    {
      StoreInvariant(customers, orders, campaigns, logs, nextId)
    }

    constructor ()
      ensures Valid()
      ensures customers == map[] && orders == map[] && campaigns == map[] && logs == map[]
      ensures CountersConsistent(campaigns, logs)
    {
      customers, orders, campaigns, logs := map[], map[], map[], map[];
      nextId := 0;
    }

    // ------------------------------------------------------------ customers

    /** `createCustomer`: 409 when the (normalised) email is already in use,
        500 when a required field is empty, otherwise one new customer. */
    method CreateCustomer(name: string, email: string, phone: Option<string>, now: int)
      returns (code: int, id: Id)
      requires Valid()
      modifies this
      ensures Valid()
      ensures code == 409 <==> EmailTaken(old(customers), NormalizeEmail(email), None)
      ensures code == 500 <==>
        !EmailTaken(old(customers), NormalizeEmail(email), None) && SaveCustomer(name, email, phone, now).None?
      ensures code == 201 || code == 409 || code == 500
      ensures code != 201 ==> customers == old(customers) && nextId == old(nextId)
      ensures code == 201 ==> id == old(nextId) && id !in old(customers) && nextId == old(nextId) + 1
      ensures code == 201 ==> customers == old(customers)[id := SaveCustomer(name, email, phone, now).value]
      ensures orders == old(orders) && campaigns == old(campaigns) && logs == old(logs)
    {
      id := 0;
      var saved := SaveCustomer(name, email, phone, now);
      if EmailTaken(customers, NormalizeEmail(email), None) {
        code := 409;
      } else if saved.None? {
        code := 500;
      } else {
        SaveCustomerDefaults(name, email, phone, now);
        id := nextId;
        AddCustomerKeepsInvariant(customers, orders, campaigns, logs, nextId, saved.value);
        customers := customers[id := saved.value];
        nextId := nextId + 1;
        code := 201;
      }
    }

    /** `updateCustomer`: the update validators (required name and email) run
        first (500), then an unknown id answers 404, and an email another
        customer already has breaks the unique index (500). Otherwise only
        name, email, a supplied phone and `updatedAt` change. */
    method UpdateCustomer(id: Id, name: string, email: string, phone: Option<string>, now: int)
      returns (code: int)
      requires Valid()
      modifies this
      ensures Valid()
      ensures code == 404 <==> Trim(name) != [] && NormalizeEmail(email) != [] && id !in old(customers)
      ensures code == 200 <==>
        Trim(name) != [] && NormalizeEmail(email) != [] && id in old(customers)
        && !EmailTaken(old(customers), NormalizeEmail(email), Some(id))
      ensures code == 200 || code == 404 || code == 500
      ensures code != 200 ==> customers == old(customers)
      ensures code == 200 ==> customers == old(customers)[id := old(customers)[id].(
                name := Trim(name), email := NormalizeEmail(email),
                phone := if phone.Some? then TrimOption(phone) else old(customers)[id].phone,
                updatedAt := now)]
      ensures nextId == old(nextId) && orders == old(orders) && campaigns == old(campaigns) && logs == old(logs)
    {
      var n, e := Trim(name), NormalizeEmail(email);
      if n == [] || e == [] {
        return 500;
      }
      if id !in customers {
        return 404;
      }
      if EmailTaken(customers, e, Some(id)) {
        return 500;
      }
      var c := customers[id];
      var updated := c.(name := n, email := e, phone := if phone.Some? then TrimOption(phone) else c.phone,
                        updatedAt := now);
      ReplaceCustomerKeepsInvariant(customers, orders, campaigns, logs, nextId, id, updated);
      customers := customers[id := updated];
      code := 200;
    }

    /** `deleteCustomer`: 404 for an unknown id, otherwise exactly that customer is removed. */
    method DeleteCustomer(id: Id) returns (code: int)
      requires Valid()
      modifies this
      ensures Valid()
      ensures code == 404 <==> id !in old(customers)
      ensures code == 200 <==> id in old(customers)
      ensures customers == old(customers) - {id}
      ensures nextId == old(nextId) && orders == old(orders) && campaigns == old(campaigns) && logs == old(logs)
    {
      if id !in customers {
        return 404;
      }
      RemoveCustomerKeepsInvariant(customers, orders, campaigns, logs, nextId, id);
      customers := customers - {id};
      code := 200;
    }

    // ------------------------------------------------------------ orders

    /** `createOrder`: 404 for an unknown customer; otherwise one order is
        saved and the customer's spend grows by the amount, visits by one, and
        `lastActivity` and (through the schema's timestamps) `updatedAt` become now. */
    method CreateOrder(customer: Id, amount: int, products: seq<ProductLine>, now: int)
      returns (code: int, id: Id)
      requires Valid()
      modifies this
      ensures Valid()
      ensures code == 404 <==> customer !in old(customers)
      ensures code == 500 <==> customer in old(customers) && SaveOrder(customer, amount, products, now).None?
      ensures code == 201 || code == 404 || code == 500
      ensures code != 201 ==> customers == old(customers) && orders == old(orders) && nextId == old(nextId)
      ensures code == 201 ==> id == old(nextId) && id !in old(orders) && nextId == old(nextId) + 1
      ensures code == 201 ==> orders == old(orders)[id := Order(customer, amount, products, "pending", now, now, now)]
      ensures code == 201 ==> customers == old(customers)[customer := old(customers)[customer].(
                totalSpend := old(customers)[customer].totalSpend + amount,
                visits := old(customers)[customer].visits + 1,
                lastActivity := now, updatedAt := now)]
      ensures campaigns == old(campaigns) && logs == old(logs)
    {
      id := 0;
      if customer !in customers {
        return 404, id;
      }
      var saved := SaveOrder(customer, amount, products, now);
      if saved.None? {
        return 500, id;
      }
      id := nextId;
      var c := customers[customer];
      var updated := c.(totalSpend := c.totalSpend + amount, visits := c.visits + 1, lastActivity := now,
                         updatedAt := now);
      AddOrderKeepsInvariant(customers, orders, campaigns, logs, nextId, saved.value, customer, updated);
      orders := orders[id := saved.value];
      nextId := nextId + 1;
      customers := customers[customer := updated];
      code := 201;
    }

    /** `updateOrderStatus`: 404 for an unknown order, otherwise only its status
        changes (to any string: no validators run on this update), along with
        the `updatedAt` timestamp. */
    method UpdateOrderStatus(id: Id, status: string, now: int) returns (code: int)
      requires Valid()
      modifies this
      ensures Valid()
      ensures code == 404 <==> id !in old(orders)
      ensures code == 200 <==> id in old(orders)
      ensures code == 404 ==> orders == old(orders)
      ensures code == 200 ==> orders == old(orders)[id := old(orders)[id].(status := status, updatedAt := now)]
      ensures nextId == old(nextId) && customers == old(customers) && campaigns == old(campaigns) && logs == old(logs)
    {
      if id !in orders {
        return 404;
      }
      var updated := orders[id].(status := status, updatedAt := now);
      ReplaceOrderKeepsInvariant(customers, orders, campaigns, logs, nextId, id, updated);
      orders := orders[id := updated];
      code := 200;
    }

    // ------------------------------------------------------------ campaigns

    /** `createCampaign`: a draft campaign when the document passes the schema, 500 otherwise. */
    method CreateCampaign(name: string, description: Option<string>, rules: Rules, message: string, createdBy: Id)
      returns (code: int, id: Id)
      requires Valid()
      modifies this
      ensures Valid()
      ensures code == 201 <==> SaveCampaign(name, description, rules, message, createdBy).Some?
      ensures code == 201 || code == 500
      ensures code == 500 ==> campaigns == old(campaigns) && nextId == old(nextId)
      ensures code == 201 ==> id == old(nextId) && id !in old(campaigns) && nextId == old(nextId) + 1
      ensures code == 201 ==> campaigns == old(campaigns)[id := SaveCampaign(name, description, rules, message, createdBy).value]
      ensures customers == old(customers) && orders == old(orders) && logs == old(logs)
      ensures old(CountersConsistent(campaigns, logs)) ==> CountersConsistent(campaigns, logs)
    {
      id := 0;
      var saved := SaveCampaign(name, description, rules, message, createdBy);
      if saved.None? {
        code := 500;
      } else {
        SaveCampaignDefaults(name, description, rules, message, createdBy);
        id := nextId;
        if CountersConsistent(campaigns, logs) {
          AddCampaignKeepsConsistency(campaigns, logs, id, saved.value);
        }
        AddCampaignKeepsInvariant(customers, orders, campaigns, logs, nextId, saved.value);
        campaigns := campaigns[id := saved.value];
        nextId := nextId + 1;
        code := 201;
      }
    }

    /** `activateCampaign`: 404 for an unknown campaign and 500 for rules that
        give an invalid filter, both without any change. Otherwise the
        matching customers, in natural order, become the audience, the
        campaign becomes active (whatever its status was), and one pending
        log with the personalised message is saved and handed to the vendor
        per audience member. */
    method ActivateCampaign(cid: Id, now: int) returns (code: int, audienceSize: nat, dispatches: seq<Dispatch>)
      requires Valid()
      modifies this
      ensures Valid()
      ensures code == 404 <==> cid !in old(campaigns)
      ensures code == 500 <==>
        cid in old(campaigns) && Audience(old(campaigns)[cid].rules, old(customers), old(nextId)).InvalidFilter?
      ensures code == 200 || code == 404 || code == 500
      ensures code != 200 ==>
        campaigns == old(campaigns) && logs == old(logs) && nextId == old(nextId) && dispatches == []
      ensures code == 200 ==>
        var c := old(campaigns)[cid];
        var aud := Audience(c.rules, old(customers), old(nextId)).value;
        && audienceSize == |aud|
        && Preview(c.rules, old(customers), old(nextId)).body == Some(audienceSize)
        && campaigns == old(campaigns)[cid := c.(audience := aud, audienceSize := |aud|, status := Active)]
        && nextId == old(nextId) + |aud|
        && (forall i :: 0 <= i < |aud| ==> aud[i] in old(customers))
        && logs == old(logs) + ActivationLogs(cid, c.message, Members(aud, old(customers)), old(nextId), now)
        && dispatches == ActivationDispatches(c.message, Members(aud, old(customers)), old(nextId))
      ensures customers == old(customers) && orders == old(orders)
      ensures old(CountersConsistent(campaigns, logs)) ==> CountersConsistent(campaigns, logs)
    {
      audienceSize, dispatches := 0, [];
      if cid !in campaigns {
        return 404, audienceSize, dispatches;
      }
      var c := campaigns[cid];
      var found := Audience(c.rules, customers, nextId);
      if found.InvalidFilter? {
        return 500, audienceSize, dispatches;
      }
      var aud := found.value;
      assert forall j :: 0 <= j < |aud| ==> aud[j] in customers by {
        forall j | 0 <= j < |aud| ensures aud[j] in customers {
          assert aud[j] in found.value;
        }
      }
      PreviewIsAudienceSize(c.rules, customers, nextId);
      var activated := c.(audience := aud, audienceSize := |aud|, status := Active);
      ReplaceCampaignKeepsInvariant(customers, orders, campaigns, logs, nextId, cid, activated);
      if CountersConsistent(campaigns, logs) {
        SameStatsKeepConsistency(campaigns, logs, cid, activated);
      }
      campaigns := campaigns[cid := activated];
      audienceSize := |aud|;
      var members := Members(aud, customers);
      assert forall j :: 0 <= j < |members| ==> members[j].doc.name != [] by {
        forall j | 0 <= j < |members| ensures members[j].doc.name != [] {
          assert members[j].doc == customers[aud[j]];
        }
      }
      dispatches := SaveActivationLogs(cid, c.message, members, now);
      code := 200;
    }

    /** The loop of `activateCampaign`: for each member in order, a pending
        log with the personalised message is saved under the next identifier
        and handed to the vendor. */
    method SaveActivationLogs(cid: Id, template: string, members: seq<Entry<Customer>>, now: int)
      returns (dispatches: seq<Dispatch>)
      requires Valid()
      requires cid in campaigns && template != []
      requires forall i :: 0 <= i < |members| ==> members[i].doc.name != []
      modifies this
      ensures Valid()
      ensures customers == old(customers) && orders == old(orders) && campaigns == old(campaigns)
      ensures nextId == old(nextId) + |members|
      ensures logs == old(logs) + ActivationLogs(cid, template, members, old(nextId), now)
      ensures dispatches == ActivationDispatches(template, members, old(nextId))
      ensures old(CountersConsistent(campaigns, logs)) ==> CountersConsistent(campaigns, logs)
    {
      ghost var logs0 := logs;
      ghost var consistent := CountersConsistent(campaigns, logs);
      var first := nextId;
      dispatches := [];
      var i := 0;
      while i < |members|
        invariant 0 <= i <= |members|
        invariant customers == old(customers) && orders == old(orders) && campaigns == old(campaigns)
        invariant nextId == first + i
        invariant logs == logs0 + ActivationLogs(cid, template, members[..i], first, now)
        invariant dispatches == ActivationDispatches(template, members[..i], first)
        invariant consistent ==> CountersConsistent(campaigns, logs)
        invariant Valid()
      {
        var log := MemberLog(cid, template, members[i], now);
        ActivationStep(logs0, cid, template, members, first, now, i);
        MemberLogNonEmpty(cid, template, members[i], now);
        if consistent {
          AddPendingLogKeepsConsistency(campaigns, logs, nextId, log);
        }
        AddLogKeepsInvariant(customers, orders, campaigns, logs, nextId, log);
        logs := logs[nextId := log];
        dispatches := dispatches + [MemberDispatch(template, members[i], nextId)];
        nextId := nextId + 1;
        i := i + 1;
      }
      assert members[..i] == members;
    }

    /** `deliveryReceipt`: 404 for an unknown log; a status outside the log
        enumeration fails the save (500, nothing changes). Otherwise the log
        takes the status (and a supplied failure reason) and its campaign's
        matching counter goes up by one, with no check of the log's previous
        status; when the campaign is gone the handler fails (500) after the
        log update. */
    method DeliveryReceipt(lid: Id, status: string, reason: Option<string>) returns (code: int)
      requires Valid()
      modifies this
      ensures Valid()
      ensures code == 404 <==> lid !in old(logs)
      ensures code == 200 <==> lid in old(logs) && ParseLogStatus(status).Some? && old(logs)[lid].campaign in old(campaigns)
      ensures code == 200 || code == 404 || code == 500
      ensures lid !in old(logs) || ParseLogStatus(status).None? ==> logs == old(logs) && campaigns == old(campaigns)
      ensures lid in old(logs) && ParseLogStatus(status).Some? ==>
        var st := ParseLogStatus(status).value;
        var cid := old(logs)[lid].campaign;
        && logs == old(logs)[lid := RecordOutcome(old(logs)[lid], st, reason)]
        && campaigns == if cid in old(campaigns)
                        then old(campaigns)[cid := old(campaigns)[cid].(deliveryStats := Bump(old(campaigns)[cid].deliveryStats, st))]
                        else old(campaigns)
      ensures old(CountersConsistent(campaigns, logs)) && lid in old(logs) && old(logs)[lid].status == Pending
              ==> CountersConsistent(campaigns, logs)
      ensures nextId == old(nextId) && customers == old(customers) && orders == old(orders)
    {
      if lid !in logs {
        return 404;
      }
      var st := ParseLogStatus(status);
      if st.None? {
        return 500;
      }
      var log := logs[lid];
      if CountersConsistent(campaigns, logs) && log.status == Pending {
        if log.campaign in campaigns {
          FirstReceiptKeepsConsistency(campaigns, logs, lid, st.value, reason);
        } else {
          OrphanReceiptKeepsConsistency(campaigns, logs, lid, st.value, reason);
        }
      }
      ReplaceLogKeepsInvariant(customers, orders, campaigns, logs, nextId, lid, RecordOutcome(log, st.value, reason));
      logs := logs[lid := RecordOutcome(log, st.value, reason)];
      if log.campaign !in campaigns {
        return 500;
      }
      var c := campaigns[log.campaign];
      ReplaceCampaignKeepsInvariant(customers, orders, campaigns, logs, nextId, log.campaign,
                                    c.(deliveryStats := Bump(c.deliveryStats, st.value)));
      campaigns := campaigns[log.campaign := c.(deliveryStats := Bump(c.deliveryStats, st.value))];
      code := 200;
    }

    /** The outcome part of `vendorService.sendMessage` for log `lid`, with the
        random outcome given as `isSuccess` and `fault` naming the store call
        that throws, if any. */
    method SendMessageOutcome(lid: Id, isSuccess: bool, fault: StoreFault) returns (r: VendorResult)
      requires Valid()
      modifies this
      ensures Valid()
      ensures fault == FindLogFails ==> r == VendorResult(false, false) && logs == old(logs) && campaigns == old(campaigns)
      ensures fault != FindLogFails && lid !in old(logs) ==>
                r == VendorResult(isSuccess, true) && logs == old(logs) && campaigns == old(campaigns)
      ensures fault == SaveLogFails && lid in old(logs) ==>
                r == VendorResult(false, false) && logs == old(logs) && campaigns == old(campaigns)
      ensures fault !in {FindLogFails, SaveLogFails} && lid in old(logs) ==>
        var st := if isSuccess then Sent else Failed;
        var cid := old(logs)[lid].campaign;
        && logs == old(logs)[lid := RecordOutcome(old(logs)[lid], st, if isSuccess then None else Some(DeliveryFailedReason))]
        && (fault == NoFault && cid in old(campaigns) ==>
              r == VendorResult(isSuccess, true)
              && campaigns == old(campaigns)[cid := old(campaigns)[cid].(deliveryStats := Bump(old(campaigns)[cid].deliveryStats, st))])
        && (fault != NoFault && (cid in old(campaigns) || fault == FindCampaignFails) ==>
              r == VendorResult(false, false) && campaigns == old(campaigns))
        && (cid !in old(campaigns) && fault != FindCampaignFails ==>
              r == VendorResult(isSuccess, true) && campaigns == old(campaigns))
      ensures (old(CountersConsistent(campaigns, logs)) && lid in old(logs) && old(logs)[lid].status == Pending
               && fault == NoFault) ==> CountersConsistent(campaigns, logs)
      ensures nextId == old(nextId) && customers == old(customers) && orders == old(orders)
    {
      var st := if isSuccess then Sent else Failed;
      var reason := if isSuccess then None else Some(DeliveryFailedReason);
      if fault == FindLogFails {
        return VendorResult(false, false);
      }
      if lid !in logs {
        return VendorResult(isSuccess, true);
      }
      if fault == SaveLogFails {
        return VendorResult(false, false);
      }
      var log := logs[lid];
      if CountersConsistent(campaigns, logs) && log.status == Pending {
        if log.campaign in campaigns {
          FirstReceiptKeepsConsistency(campaigns, logs, lid, st, reason);
        } else {
          OrphanReceiptKeepsConsistency(campaigns, logs, lid, st, reason);
        }
      }
      ReplaceLogKeepsInvariant(customers, orders, campaigns, logs, nextId, lid, RecordOutcome(log, st, reason));
      logs := logs[lid := RecordOutcome(log, st, reason)];
      if fault == FindCampaignFails {
        return VendorResult(false, false);
      }
      if log.campaign in campaigns {
        if fault == SaveCampaignFails {
          return VendorResult(false, false);
        }
        var c := campaigns[log.campaign];
        ReplaceCampaignKeepsInvariant(customers, orders, campaigns, logs, nextId, log.campaign,
                                      c.(deliveryStats := Bump(c.deliveryStats, st)));
        campaigns := campaigns[log.campaign := c.(deliveryStats := Bump(c.deliveryStats, st))];
      }
      r := VendorResult(isSuccess, true);
    }
  }
}
