/** The read-only handlers of the customer and order controllers: lookups by
    identifier (404 when absent) and the listings sorted newest first. A
    listing is a scan of the table in natural order followed by a sort on a
    date field, largest first. */
module Queries {
  import opened Collections
  import opened Models

  /** `getCustomerById` and `getOrderById`: `findById` on the table, 404 when
      the id is absent, otherwise 200 with the stored document. */
  function Lookup<T>(table: map<Id, T>, id: Id): (r: Reply<T>)
    ensures r.status == 404 <==> id !in table
    ensures r.status == 200 <==> id in table
    ensures id in table ==> r.body == Some(table[id])
    ensures id !in table ==> r.body.None?
  {
    if id in table then Reply(200, Some(table[id])) else Reply(404, None)
  }

  function CreatedAtOf(e: Entry<Customer>): int
  {
    e.doc.createdAt
  }

  function OrderDateOf(e: Entry<Order>): int
  {
    e.doc.orderDate
  }

  /** `getCustomers`: `Customer.find({}).sort({ createdAt: -1 })` over a table
      whose keys are all below `bound`. */
  function GetCustomers(customers: map<Id, Customer>, bound: nat): seq<Entry<Customer>>
  {
    SortDesc(Entries(customers, bound), CreatedAtOf)
  }

  /** `getOrders`: `Order.find({}).sort({ orderDate: -1 })`. */
  function GetOrders(orders: map<Id, Order>, bound: nat): seq<Entry<Order>>
  {
    SortDesc(Entries(orders, bound), OrderDateOf)
  }

  /** `Order.find({ customer: cid })`: the entries of customer `cid`, in scan order. */
  function OfCustomer(es: seq<Entry<Order>>, cid: Id): (r: seq<Entry<Order>>)
    ensures forall e :: e in r <==> e in es && e.doc.customer == cid
    ensures multiset(r) <= multiset(es)
  {
    if es == [] then []
    else
      assert es == [es[0]] + es[1..];
      (if es[0].doc.customer == cid then [es[0]] else []) + OfCustomer(es[1..], cid)
  }

  /** `getOrdersByCustomer`: the customer's orders, latest first. An unknown
      customer simply has no orders (200 with an empty list). */
  function GetOrdersByCustomer(orders: map<Id, Order>, cid: Id, bound: nat): seq<Entry<Order>>
  {
    SortDesc(OfCustomer(Entries(orders, bound), cid), OrderDateOf)
  }

  /** The scan of a table yields each of its documents once, under its own key. */
  lemma EntriesAreTable<T>(m: map<Id, T>, bound: nat)
    ensures forall e :: e in Entries(m, bound) ==> e.id in m && e.id < bound && e.doc == m[e.id]
    ensures forall k :: k in m && k < bound ==> Entry(k, m[k]) in Entries(m, bound)
    ensures forall i, j :: 0 <= i < j < |Entries(m, bound)| ==> Entries(m, bound)[i].id < Entries(m, bound)[j].id
  {
    var es := Entries(m, bound);
    var ks := KeysBelow(m, bound);
    forall k | k in m && k < bound ensures Entry(k, m[k]) in es {
      var i :| 0 <= i < |ks| && ks[i] == k;
      assert es[i] == Entry(k, m[k]);
    }
  }

  /** `getCustomers` lists every customer exactly once, with its stored
      document, latest `createdAt` first. */
  lemma GetCustomersListsTable(customers: map<Id, Customer>, bound: nat)
    ensures multiset(GetCustomers(customers, bound)) == multiset(Entries(customers, bound))
    ensures SortedDesc(GetCustomers(customers, bound), CreatedAtOf)
    ensures forall i, j :: 0 <= i < j < |GetCustomers(customers, bound)| ==>
      GetCustomers(customers, bound)[i].doc.createdAt >= GetCustomers(customers, bound)[j].doc.createdAt
    ensures forall e :: e in GetCustomers(customers, bound) <==> e.id in customers && e.id < bound && e.doc == customers[e.id]
  {
    var es := Entries(customers, bound);
    SortDescCorrect(es, CreatedAtOf);
    EntriesAreTable(customers, bound);
    var r := GetCustomers(customers, bound);
    forall e: Entry<Customer> ensures e in r <==> e in es {
      assert e in r <==> e in multiset(r);
      assert e in es <==> e in multiset(es);
    }
    forall e: Entry<Customer> | e.id in customers && e.id < bound && e.doc == customers[e.id] ensures e in es {
      assert e == Entry(e.id, customers[e.id]);
    }
  }

  /** `getOrders` lists every order exactly once, with its stored document,
      latest `orderDate` first. */
  lemma GetOrdersListsTable(orders: map<Id, Order>, bound: nat)
    ensures multiset(GetOrders(orders, bound)) == multiset(Entries(orders, bound))
    ensures forall i, j :: 0 <= i < j < |GetOrders(orders, bound)| ==>
      GetOrders(orders, bound)[i].doc.orderDate >= GetOrders(orders, bound)[j].doc.orderDate
    ensures forall e :: e in GetOrders(orders, bound) <==> e.id in orders && e.id < bound && e.doc == orders[e.id]
  {
    var es := Entries(orders, bound);
    SortDescCorrect(es, OrderDateOf);
    EntriesAreTable(orders, bound);
    var r := GetOrders(orders, bound);
    assert SortedDesc(r, OrderDateOf);
    forall e: Entry<Order> ensures e in r <==> e in es {
      assert e in r <==> e in multiset(r);
      assert e in es <==> e in multiset(es);
    }
    forall e: Entry<Order> | e.id in orders && e.id < bound && e.doc == orders[e.id] ensures e in es {
      assert e == Entry(e.id, orders[e.id]);
    }
  }

  /** `getOrdersByCustomer` lists exactly the orders whose customer is `cid`,
      each once, latest `orderDate` first. */
  lemma GetOrdersByCustomerSelects(orders: map<Id, Order>, cid: Id, bound: nat)
    ensures multiset(GetOrdersByCustomer(orders, cid, bound)) == multiset(OfCustomer(Entries(orders, bound), cid))
    ensures forall i, j :: 0 <= i < j < |GetOrdersByCustomer(orders, cid, bound)| ==>
      GetOrdersByCustomer(orders, cid, bound)[i].doc.orderDate >= GetOrdersByCustomer(orders, cid, bound)[j].doc.orderDate
    ensures forall e :: e in GetOrdersByCustomer(orders, cid, bound) <==>
      e.id in orders && e.id < bound && e.doc == orders[e.id] && e.doc.customer == cid
  {
    var es := Entries(orders, bound);
    var mine := OfCustomer(es, cid);
    SortDescCorrect(mine, OrderDateOf);
    EntriesAreTable(orders, bound);
    var r := GetOrdersByCustomer(orders, cid, bound);
    assert SortedDesc(r, OrderDateOf);
    forall e: Entry<Order> ensures e in r <==> e in mine {
      assert e in r <==> e in multiset(r);
      assert e in mine <==> e in multiset(mine);
    }
    forall e: Entry<Order> | e.id in orders && e.id < bound && e.doc == orders[e.id] ensures e in es {
      assert e == Entry(e.id, orders[e.id]);
    }
  }
}
