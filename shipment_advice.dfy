/**
 * The shipment advice notification of custom_shipment_advice: shipments
 * whose ETA falls in the next `days_before_eta` days and that have not been
 * advised yet are grouped by customer, one mail per customer lists a table
 * of EX/DOCK containers per shipment, and the shipments of every customer
 * whose mail went out are flagged as advised.
 *
 * Node storage is a sequence of shipment records with their containers;
 * dates are day numbers (the query compares Y-m-d strings, which order as
 * the days do) with the ETA's display text carried alongside. The mail
 * manager's answer, the table renderer and `token_replace` are function
 * parameters.
 */
module ShipmentAdvice {
  import opened Php

  /** A container of a shipment, with what its sales contract and customer say. */
  datatype Container = Container(
    origin: string,
    color: string,
    grade: string,
    containerId: string,
    tsSeal: Option<string>,              // field_ts_seal_number, None when empty
    scId: string,
    quantity: string,                    // the sales contract's field_quantity
    deliveryTerms: string,
    customerNid: nat,
    customerName: string,
    customerEmail: string)

  /** A shipment node and its containers that have a sales contract, in load order. */
  datatype Shipment = Shipment(
    nid: nat,
    shipmentId: string,
    eta: int,                            // field_eta as a day number
    etaLabel: string,                    // field_eta formatted as 'M d, Y'
    supplierName: string,
    containers: seq<Container>)

  /**
   * The shipment query: ETA from today to today plus `days` inclusive, and
   * no advice-sent flag; query order is kept.
   */
  function Due(shipments: seq<Shipment>, flagged: map<nat, int>, today: int, days: int): (due: seq<Shipment>)
    ensures forall k :: 0 <= k < |due| ==> today <= due[k].eta <= today + days && due[k].nid !in flagged
    ensures forall s :: s in shipments && today <= s.eta <= today + days && s.nid !in flagged ==> s in due
    ensures forall s :: s in due ==> s in shipments
  {
    if shipments == [] then []
    else
      var rest := Due(shipments[..|shipments| - 1], flagged, today, days);
      var s := shipments[|shipments| - 1];
      assert shipments == shipments[..|shipments| - 1] + [s];
      if today <= s.eta <= today + days && s.nid !in flagged then rest + [s] else rest
  }

  /** The TS seal cell: "N/A" when the field is empty. */
  function TsSealCell(tsSeal: Option<string>): string
  {
    if tsSeal.Some? then tsSeal.value else "N/A"
  }

  /** One table row per container, in the order of the table header. */
  function TableRow(shipment: Shipment, container: Container): (cells: seq<string>)
    ensures |cells| == |Header|
    ensures cells[5] == (if container.tsSeal.None? then "N/A" else container.tsSeal.value)
  {
    [container.origin, container.color, container.grade, container.scId, container.containerId,
     TsSealCell(container.tsSeal), shipment.supplierName]
  }

  /** The header of every shipment table. */
  const Header: seq<string> := ["Origin", "Color", "Grade", "SC", "Container ID", "TS #", "Supplier"]

  /** What one EX/DOCK container contributes to the notification data. */
  datatype Row = Row(
    customerNid: nat,
    customerName: string,
    email: string,
    shipmentNid: nat,
    quantity: string,
    shipmentId: string,
    eta: int,
    etaLabel: string,
    cells: seq<string>)

  function RowOf(shipment: Shipment, container: Container): Row
  {
    Row(container.customerNid, container.customerName, container.customerEmail, shipment.nid, container.quantity,
        shipment.shipmentId, shipment.eta, shipment.etaLabel, TableRow(shipment, container))
  }

  /** The rows of the first containers of a shipment: only those sold EX/DOCK count. */
  function ShipmentRows(shipment: Shipment, containers: seq<Container>): seq<Row>
  {
    if containers == [] then []
    else
      var c := containers[|containers| - 1];
      var rest := ShipmentRows(shipment, containers[..|containers| - 1]);
      if c.deliveryTerms == "EX/DOCK" then rest + [RowOf(shipment, c)] else rest
  }

  /** Every row comes from an EX/DOCK container of the shipment, and there is at most one per container. */
  lemma {:induction false} ShipmentRowsAreExDock(shipment: Shipment, containers: seq<Container>)
    ensures |ShipmentRows(shipment, containers)| <= |containers|
    ensures forall r :: r in ShipmentRows(shipment, containers) ==>
              r.shipmentNid == shipment.nid &&
              exists c :: c in containers && c.deliveryTerms == "EX/DOCK" && r == RowOf(shipment, c)
    decreases |containers|
  {
    if containers != [] {
      var front := containers[..|containers| - 1];
      ShipmentRowsAreExDock(shipment, front);
      forall c | c in front
        ensures c in containers
      {
      }
    }
  }

  lemma ShipmentRowsSnoc(shipment: Shipment, containers: seq<Container>, j: nat)
    requires j < |containers|
    ensures ShipmentRows(shipment, containers[..j + 1]) ==
            ShipmentRows(shipment, containers[..j]) +
            (if containers[j].deliveryTerms == "EX/DOCK" then [RowOf(shipment, containers[j])] else [])
  {
    assert containers[..j + 1][..j] == containers[..j];
  }

  /** The rows of a sequence of shipments, shipment after shipment. */
  function AllRows(shipments: seq<Shipment>): seq<Row>
  {
    if shipments == [] then []
    else
      var s := shipments[|shipments| - 1];
      AllRows(shipments[..|shipments| - 1]) + ShipmentRows(s, s.containers)
  }

  lemma AllRowsSnoc(shipments: seq<Shipment>, i: nat)
    requires i < |shipments|
    ensures AllRows(shipments[..i + 1]) ==
            AllRows(shipments[..i]) + ShipmentRows(shipments[i], shipments[i].containers)
  {
    assert shipments[..i + 1][..i] == shipments[..i];
  }

  lemma ConcatAssoc<T>(a: seq<T>, b: seq<T>, c: seq<T>)
    ensures a + b + c == a + (b + c)
  {
  }

  /** A PHP array with integer keys: the keys in insertion order and the value of each. */
  datatype Assoc<V> = Assoc(keys: seq<nat>, values: map<nat, V>)
  {
    /** Each key once, and exactly the keys that have a value. */
    predicate Valid()
    {
      (forall i, j :: 0 <= i < j < |keys| ==> keys[i] != keys[j]) &&
      values.Keys == set k | k in keys
    }

    /** `$array[$k] = $v`: a new key goes to the end, an existing one keeps its place. */
    function Put(k: nat, v: V): (a: Assoc<V>)
      ensures a.values == values[k := v]
      ensures k in values ==> a.keys == keys
      ensures k !in values ==> a.keys == keys + [k]
    {
      if k in values then Assoc(keys, values[k := v]) else Assoc(keys + [k], values[k := v])
    }
  }

  function Empty<V>(): (a: Assoc<V>)
    ensures a.Valid() && a.keys == []
  {
    Assoc([], map[])
  }

  lemma PutValid<V>(a: Assoc<V>, k: nat, v: V)
    requires a.Valid()
    ensures a.Put(k, v).Valid()
  {
  }

  /** One shipment of a customer's notification. */
  datatype ShipmentEntry = ShipmentEntry(
    quantity: string,
    shipmentId: string,
    eta: int,
    etaLabel: string,
    nid: nat,
    containers: seq<seq<string>>)

  /** One customer's notification. */
  datatype CustomerEntry = CustomerEntry(customer: string, email: string, shipments: Assoc<ShipmentEntry>)

  /** The notification data keyed by customer nid. */
  type Notifications = Assoc<CustomerEntry>

  /** The body of the inner loop: create the customer and the shipment when missing, append the row. */
  function Insert(data: Notifications, r: Row): Notifications
  {
    var customers := if r.customerNid in data.values then data
                     else data.Put(r.customerNid, CustomerEntry(r.customerName, r.email, Empty()));
    var entry := customers.values[r.customerNid];
    var shipments := if r.shipmentNid in entry.shipments.values then entry.shipments
                     else entry.shipments.Put(r.shipmentNid, ShipmentEntry(r.quantity, r.shipmentId, r.eta, r.etaLabel, r.shipmentNid, []));
    var s := shipments.values[r.shipmentNid];
    customers.Put(r.customerNid, entry.(shipments := shipments.Put(r.shipmentNid, s.(containers := s.containers + [r.cells]))))
  }

  /** The notification data built from a sequence of rows. */
  function Group(rows: seq<Row>): Notifications
  {
    if rows == [] then Empty() else Insert(Group(rows[..|rows| - 1]), rows[|rows| - 1])
  }

  lemma GroupSnoc(rows: seq<Row>, r: Row)
    ensures Group(rows + [r]) == Insert(Group(rows), r)
  {
    assert (rows + [r])[..|rows|] == rows;
  }

  /** Notification data whose customer and shipment keys are each listed once. */
  predicate WellFormed(data: Notifications)
  {
    data.Valid() && forall c :: c in data.values ==> data.values[c].shipments.Valid()
  }

  lemma InsertWellFormed(data: Notifications, r: Row)
    requires WellFormed(data)
    ensures WellFormed(Insert(data, r))
  {
    var customers := if r.customerNid in data.values then data
                     else data.Put(r.customerNid, CustomerEntry(r.customerName, r.email, Empty()));
    PutValid(data, r.customerNid, CustomerEntry(r.customerName, r.email, Empty()));
    var entry := customers.values[r.customerNid];
    var shipments := if r.shipmentNid in entry.shipments.values then entry.shipments
                     else entry.shipments.Put(r.shipmentNid, ShipmentEntry(r.quantity, r.shipmentId, r.eta, r.etaLabel, r.shipmentNid, []));
    PutValid(entry.shipments, r.shipmentNid, ShipmentEntry(r.quantity, r.shipmentId, r.eta, r.etaLabel, r.shipmentNid, []));
    var s := shipments.values[r.shipmentNid];
    PutValid(shipments, r.shipmentNid, s.(containers := s.containers + [r.cells]));
    var e := entry.(shipments := shipments.Put(r.shipmentNid, s.(containers := s.containers + [r.cells])));
    PutValid(customers, r.customerNid, e);
  }

  /** One entry per customer, one shipment entry per (customer, shipment). */
  lemma {:induction false} GroupWellFormed(rows: seq<Row>)
    ensures WellFormed(Group(rows))
    decreases |rows|
  {
    if rows != [] {
      GroupWellFormed(rows[..|rows| - 1]);
      InsertWellFormed(Group(rows[..|rows| - 1]), rows[|rows| - 1]);
    }
  }

  /** The customers that rows mention. */
  function CustomerNids(rows: seq<Row>): set<nat>
  {
    set r | r in rows :: r.customerNid
  }

  /** Exactly the customers with a row get an entry. */
  lemma {:induction false} GroupCustomers(rows: seq<Row>)
    ensures Group(rows).values.Keys == CustomerNids(rows)
    decreases |rows|
  {
    if rows != [] {
      var front := rows[..|rows| - 1];
      GroupCustomers(front);
      assert rows == front + [rows[|rows| - 1]];
      assert CustomerNids(rows) == CustomerNids(front) + {rows[|rows| - 1].customerNid};
    }
  }

  /** The table rows of one (customer, shipment) pair, in row order. */
  function Cells(rows: seq<Row>, c: nat, s: nat): seq<seq<string>>
  {
    if rows == [] then []
    else
      var r := rows[|rows| - 1];
      Cells(rows[..|rows| - 1], c, s) + (if r.customerNid == c && r.shipmentNid == s then [r.cells] else [])
  }

  /**
   * A (customer, shipment) pair has a shipment entry exactly when some row
   * is for it, and that entry's table rows are the pair's rows in order.
   */
  lemma {:induction false} GroupCells(rows: seq<Row>, c: nat, s: nat)
    ensures var data := Group(rows);
            (c in data.values && s in data.values[c].shipments.values) <==> Cells(rows, c, s) != []
    ensures var data := Group(rows);
            c in data.values && s in data.values[c].shipments.values ==>
              data.values[c].shipments.values[s].containers == Cells(rows, c, s)
    decreases |rows|
  {
    if rows != [] {
      var front := rows[..|rows| - 1];
      GroupCells(front, c, s);
    }
  }

  /** The first row of a customer fixes the customer's name and email. */
  lemma {:induction false} GroupFirstSeenCustomer(rows: seq<Row>, i: nat)
    requires i < |rows|
    requires forall j :: 0 <= j < i ==> rows[j].customerNid != rows[i].customerNid
    ensures var c := rows[i].customerNid;
            c in Group(rows).values &&
            Group(rows).values[c].customer == rows[i].customerName &&
            Group(rows).values[c].email == rows[i].email
    decreases |rows|
  {
    var front := rows[..|rows| - 1];
    if i < |rows| - 1 {
      GroupFirstSeenCustomer(front, i);
    } else {
      GroupCustomers(front);
      assert rows[i].customerNid !in CustomerNids(front);
    }
  }

  /** The first row of a (customer, shipment) pair fixes the shipment's quantity, id and ETA. */
  lemma {:induction false} GroupFirstSeenShipment(rows: seq<Row>, i: nat)
    requires i < |rows|
    requires forall j :: 0 <= j < i ==> !(rows[j].customerNid == rows[i].customerNid && rows[j].shipmentNid == rows[i].shipmentNid)
    ensures var c := rows[i].customerNid;
            var s := rows[i].shipmentNid;
            c in Group(rows).values && s in Group(rows).values[c].shipments.values &&
            Group(rows).values[c].shipments.values[s].quantity == rows[i].quantity &&
            Group(rows).values[c].shipments.values[s].shipmentId == rows[i].shipmentId &&
            Group(rows).values[c].shipments.values[s].eta == rows[i].eta
    decreases |rows|
  {
    var front := rows[..|rows| - 1];
    if i < |rows| - 1 {
      GroupFirstSeenShipment(front, i);
    } else {
      NoCellsWithoutRow(front, rows[i].customerNid, rows[i].shipmentNid);
      GroupCells(front, rows[i].customerNid, rows[i].shipmentNid);
    }
  }

  /** A pair that no row is for has no table rows. */
  lemma {:induction false} NoCellsWithoutRow(rows: seq<Row>, c: nat, s: nat)
    requires forall j :: 0 <= j < |rows| ==> !(rows[j].customerNid == c && rows[j].shipmentNid == s)
    ensures Cells(rows, c, s) == []
    decreases |rows|
  {
    if rows != [] {
      NoCellsWithoutRow(rows[..|rows| - 1], c, s);
    }
  }

  /** The shipment advice configuration; absent settings are `None`. */
  datatype Config = Config(
    enabled: bool,
    daysBeforeEta: int,
    devMode: bool,
    devEmail: string,
    subject: Option<string>,
    body: Option<string>,
    from: Option<string>)

  /** A mail as handed to the mail manager. */
  datatype Message = Message(to: string, subject: string, body: string, replyTo: string, from: string)

  /** The address a customer's advice goes to: the developer's in dev mode. */
  function Recipient(config: Config, entry: CustomerEntry): string
  {
    if config.devMode then config.devEmail else entry.email
  }

  function Setting(s: Option<string>): string
  {
    if s.Some? then s.value else ""
  }

  /** The caption of a shipment's table. */
  function Caption(s: ShipmentEntry): string
  {
    "Shipment " + s.shipmentId + " - Qty: " + s.quantity + " - ETA: " + s.etaLabel
  }

  /** The rendered tables of the first `n` shipments, each followed by a line break. */
  function Tables(shipments: Assoc<ShipmentEntry>, n: nat, render: (string, seq<seq<string>>) -> string): string
    requires shipments.Valid() && n <= |shipments.keys|
  {
    if n == 0 then ""
    else
      var s := shipments.values[shipments.keys[n - 1]];
      Tables(shipments, n - 1, render) + render(Caption(s), s.containers) + "<br />"
  }

  /** The subject replaces only `[customer_name]`; the body also replaces `[shipment_data]` with the tables. */
  function MessageFor(config: Config, entry: CustomerEntry, render: (string, seq<seq<string>>) -> string,
                      replace: (string, seq<string>, seq<string>) -> string): (m: Message)
    requires entry.shipments.Valid()
    ensures m.to == Recipient(config, entry)
    ensures m.subject == replace(Setting(config.subject), ["[customer_name]"], [entry.customer])
    ensures m.body == replace(Setting(config.body), ["[customer_name]", "[shipment_data]"],
                              [entry.customer, Tables(entry.shipments, |entry.shipments.keys|, render)])
  {
    var from := Setting(config.from);
    Message(Recipient(config, entry),
            replace(Setting(config.subject), ["[customer_name]"], [entry.customer]),
            replace(Setting(config.body), ["[customer_name]", "[shipment_data]"],
                    [entry.customer, Tables(entry.shipments, |entry.shipments.keys|, render)]),
            from, "custom <" + from + ">")
  }

  /** Two customers of the same name get the same subject whatever their shipments. */
  lemma SubjectHasNoShipmentData(config: Config, e1: CustomerEntry, e2: CustomerEntry,
                                 render: (string, seq<seq<string>>) -> string,
                                 replace: (string, seq<string>, seq<string>) -> string)
    requires e1.shipments.Valid() && e2.shipments.Valid() && e1.customer == e2.customer
    ensures MessageFor(config, e1, render, replace).subject == MessageFor(config, e2, render, replace).subject
  {
  }

  /** The mails for the first `n` customers, in order. */
  function Messages(data: Notifications, n: nat, config: Config, render: (string, seq<seq<string>>) -> string,
                    replace: (string, seq<string>, seq<string>) -> string): (ms: seq<Message>)
    requires WellFormed(data) && n <= |data.keys|
    ensures |ms| == n
  {
    if n == 0 then []
    else Messages(data, n - 1, config, render, replace) + [MessageFor(config, data.values[data.keys[n - 1]], render, replace)]
  }

  /** The `i`-th mail is the `i`-th customer's, in the order customers were first met. */
  lemma {:induction false} MessagesInOrder(data: Notifications, n: nat, config: Config,
                                           render: (string, seq<seq<string>>) -> string,
                                           replace: (string, seq<string>, seq<string>) -> string, i: nat)
    requires WellFormed(data) && i < n <= |data.keys|
    ensures Messages(data, n, config, render, replace)[i] == MessageFor(config, data.values[data.keys[i]], render, replace)
    decreases n
  {
    var prev := Messages(data, n - 1, config, render, replace);
    var last := MessageFor(config, data.values[data.keys[n - 1]], render, replace);
    assert Messages(data, n, config, render, replace) == prev + [last];
    if i < n - 1 {
      MessagesInOrder(data, n - 1, config, render, replace, i);
      assert (prev + [last])[i] == prev[i];
    }
  }

  /** In dev mode every mail goes to the developer's address; otherwise each goes to its customer's email. */
  lemma Recipients(data: Notifications, config: Config, render: (string, seq<seq<string>>) -> string,
                   replace: (string, seq<string>, seq<string>) -> string, i: nat)
    requires WellFormed(data) && i < |data.keys|
    ensures var to := Messages(data, |data.keys|, config, render, replace)[i].to;
            to == if config.devMode then config.devEmail else data.values[data.keys[i]].email
  {
    MessagesInOrder(data, |data.keys|, config, render, replace, i);
  }

  /** Flagging shipments one after the other with today's date. */
  function FlagAll(flags: map<nat, int>, nids: seq<nat>, today: int): (result: map<nat, int>)
  {
    if nids == [] then flags else FlagAll(flags, nids[..|nids| - 1], today)[nids[|nids| - 1] := today]
  }

  /** The flags after the first `n` customers: a customer's shipments are flagged when its mail was accepted. */
  function FlagsAfter(flags: map<nat, int>, data: Notifications, n: nat, config: Config,
                      render: (string, seq<seq<string>>) -> string, replace: (string, seq<string>, seq<string>) -> string,
                      accepts: Message -> bool, today: int): map<nat, int>
    requires WellFormed(data) && n <= |data.keys|
  {
    if n == 0 then flags
    else
      var entry := data.values[data.keys[n - 1]];
      var before := FlagsAfter(flags, data, n - 1, config, render, replace, accepts, today);
      if accepts(MessageFor(config, entry, render, replace)) then FlagAll(before, entry.shipments.keys, today) else before
  }

  /** Flagging adds exactly the flagged shipments, dated today, and keeps the other flags. */
  lemma {:induction false} FlagAllEffect(flags: map<nat, int>, nids: seq<nat>, today: int)
    ensures FlagAll(flags, nids, today).Keys == flags.Keys + set k | k in nids
    ensures forall k :: k in nids ==> FlagAll(flags, nids, today)[k] == today
    ensures forall k :: k in flags && k !in nids ==> FlagAll(flags, nids, today)[k] == flags[k]
    decreases |nids|
  {
    if nids != [] {
      var front := nids[..|nids| - 1];
      FlagAllEffect(flags, front, today);
      assert nids == front + [nids[|nids| - 1]];
      assert (set k | k in nids) == (set k | k in front) + {nids[|nids| - 1]};
    }
  }

  /** The `i`-th customer's mail was accepted and `k` is one of its shipments. */
  predicate FlaggedBy(data: Notifications, i: nat, config: Config, render: (string, seq<seq<string>>) -> string,
                      replace: (string, seq<string>, seq<string>) -> string, accepts: Message -> bool, k: nat)
    requires WellFormed(data) && i < |data.keys|
  {
    var entry := data.values[data.keys[i]];
    accepts(MessageFor(config, entry, render, replace)) && k in entry.shipments.keys
  }

  /** One more customer adds its shipments to the flags exactly when its mail was accepted. */
  lemma FlagsAfterStep(flags: map<nat, int>, data: Notifications, n: nat, config: Config,
                       render: (string, seq<seq<string>>) -> string,
                       replace: (string, seq<string>, seq<string>) -> string,
                       accepts: Message -> bool, today: int, k: nat)
    requires WellFormed(data) && 0 < n <= |data.keys|
    ensures k in FlagsAfter(flags, data, n, config, render, replace, accepts, today) <==>
            k in FlagsAfter(flags, data, n - 1, config, render, replace, accepts, today) ||
            FlaggedBy(data, n - 1, config, render, replace, accepts, k)
  {
    var entry := data.values[data.keys[n - 1]];
    var before := FlagsAfter(flags, data, n - 1, config, render, replace, accepts, today);
    FlagAllEffect(before, entry.shipments.keys, today);
  }

  /**
   * A shipment ends up flagged exactly when it was flagged before or it is
   * one of the shipments of a customer whose mail was accepted.
   */
  lemma {:induction false} FlaggedIffAccepted(flags: map<nat, int>, data: Notifications, n: nat, config: Config,
                                              render: (string, seq<seq<string>>) -> string,
                                              replace: (string, seq<string>, seq<string>) -> string,
                                              accepts: Message -> bool, today: int, k: nat)
    requires WellFormed(data) && n <= |data.keys|
    ensures k in FlagsAfter(flags, data, n, config, render, replace, accepts, today) <==>
            k in flags || exists i :: 0 <= i < n && FlaggedBy(data, i, config, render, replace, accepts, k)
    decreases n
  {
    if n > 0 {
      FlaggedIffAccepted(flags, data, n - 1, config, render, replace, accepts, today, k);
      FlagsAfterStep(flags, data, n, config, render, replace, accepts, today, k);
      if exists i :: 0 <= i < n && FlaggedBy(data, i, config, render, replace, accepts, k) {
        var i :| 0 <= i < n && FlaggedBy(data, i, config, render, replace, accepts, k);
        if i < n - 1 {
          assert exists i :: 0 <= i < n - 1 && FlaggedBy(data, i, config, render, replace, accepts, k);
        }
      }
      if exists i :: 0 <= i < n - 1 && FlaggedBy(data, i, config, render, replace, accepts, k) {
        var i :| 0 <= i < n - 1 && FlaggedBy(data, i, config, render, replace, accepts, k);
        assert 0 <= i < n;
      }
      if FlaggedBy(data, n - 1, config, render, replace, accepts, k) {
        assert 0 <= n - 1 < n;
      }
    }
  }

  /** A flagged shipment is not due on any later run. */
  lemma FlaggedNotDue(shipments: seq<Shipment>, flagged: map<nat, int>, today: int, days: int, s: Shipment)
    requires s.nid in flagged
    ensures s !in Due(shipments, flagged, today, days)
  {
  }

  /** The notification plugin: its configuration, the advice-sent flags of the shipments, and the mails sent. */
  class ShipmentAdviceNotification {
    const config: Config
    /** field_shipment_advice_sent of each flagged shipment. */
    var adviceSent: map<nat, int>
    /** Every mail handed to the mail manager, accepted or not. */
    var outbox: seq<Message>

    constructor(config: Config, adviceSent: map<nat, int>)
      ensures this.config == config && this.adviceSent == adviceSent && outbox == []
    {
      this.config := config;
      this.adviceSent := adviceSent;
      outbox := [];
    }

    /** `getShipmentsForNotification`: the due shipments' EX/DOCK containers grouped by customer and shipment. */
    /** The body of the inner loop, updating the nested arrays in place. */
    static method AddRow(data: Notifications, r: Row) returns (result: Notifications)
      ensures result == Insert(data, r)
    {
      result := data;
      if r.customerNid !in result.values {
        result := result.Put(r.customerNid, CustomerEntry(r.customerName, r.email, Empty()));
      }
      var entry := result.values[r.customerNid];
      if r.shipmentNid !in entry.shipments.values {
        var created := ShipmentEntry(r.quantity, r.shipmentId, r.eta, r.etaLabel, r.shipmentNid, []);
        entry := entry.(shipments := entry.shipments.Put(r.shipmentNid, created));
      }
      var s := entry.shipments.values[r.shipmentNid];
      s := s.(containers := s.containers + [r.cells]);
      entry := entry.(shipments := entry.shipments.Put(r.shipmentNid, s));
      result := result.Put(r.customerNid, entry);
    }

    /** The inner loop of `getShipmentsForNotification`: the EX/DOCK containers of one shipment, in order. */
    static method AddShipment(data: Notifications, ghost rows: seq<Row>, shipment: Shipment) returns (result: Notifications)
      requires data == Group(rows)
      ensures result == Group(rows + ShipmentRows(shipment, shipment.containers))
    {
      result := data;
      var containers := shipment.containers;
      ghost var grouped := rows;
      assert rows + ShipmentRows(shipment, containers[..0]) == rows;
      for j := 0 to |containers|
        invariant grouped == rows + ShipmentRows(shipment, containers[..j])
        invariant result == Group(grouped)
      {
        var container := containers[j];
        ShipmentRowsSnoc(shipment, containers, j);
        if container.deliveryTerms == "EX/DOCK" {
          var r := RowOf(shipment, container);
          GroupSnoc(grouped, r);
          result := AddRow(result, r);
          ConcatAssoc(rows, ShipmentRows(shipment, containers[..j]), [r]);
          grouped := grouped + [r];
        } else {
          assert ShipmentRows(shipment, containers[..j + 1]) == ShipmentRows(shipment, containers[..j]);
        }
      }
      assert containers[..|containers|] == containers;
    }

    method GetShipmentsForNotification(shipments: seq<Shipment>, today: int) returns (data: Notifications)
      ensures data == Group(AllRows(Due(shipments, adviceSent, today, config.daysBeforeEta)))
      ensures WellFormed(data)
    {
      var due := Due(shipments, adviceSent, today, config.daysBeforeEta);
      data := Empty();
      for i := 0 to |due|
        invariant data == Group(AllRows(due[..i]))
      {
        data := AddShipment(data, AllRows(due[..i]), due[i]);
        AllRowsSnoc(due, i);
      }
      assert due[..|due|] == due;
      GroupWellFormed(AllRows(due));
    }

    /** The tables of a customer's shipments, in order, and the list of those shipments. */
    static method RenderTables(ships: Assoc<ShipmentEntry>, render: (string, seq<seq<string>>) -> string)
      returns (tables: string, sent: seq<nat>)
      requires ships.Valid()
      ensures tables == Tables(ships, |ships.keys|, render)
      ensures sent == ships.keys
    {
      tables := "";
      sent := [];
      for j := 0 to |ships.keys|
        invariant tables == Tables(ships, j, render)
        invariant sent == ships.keys[..j]
      {
        var entry := ships.values[ships.keys[j]];
        tables := tables + render(Caption(entry), entry.containers) + "<br />";
        sent := sent + [ships.keys[j]];
        assert ships.keys[..j + 1] == ships.keys[..j] + [ships.keys[j]];
      }
      assert ships.keys[..|ships.keys|] == ships.keys;
    }

    /** Flags each listed shipment with today's date. */
    method FlagShipments(nids: seq<nat>, today: int)
      modifies this
      ensures adviceSent == FlagAll(old(adviceSent), nids, today)
      ensures outbox == old(outbox)
    {
      for k := 0 to |nids|
        invariant adviceSent == FlagAll(old(adviceSent), nids[..k], today)
        invariant outbox == old(outbox)
      {
        assert nids[..k + 1][..k] == nids[..k];
        adviceSent := adviceSent[nids[k] := today];
      }
      assert nids[..|nids|] == nids;
    }

    /** The body of the loop of `execute`: one customer's mail, then the flags if the mail was accepted. */
    method Notify(notification: CustomerEntry, today: int, render: (string, seq<seq<string>>) -> string,
                  replace: (string, seq<string>, seq<string>) -> string, accepts: Message -> bool)
      requires notification.shipments.Valid()
      modifies this
      ensures outbox == old(outbox) + [MessageFor(config, notification, render, replace)]
      ensures adviceSent == if accepts(MessageFor(config, notification, render, replace))
                            then FlagAll(old(adviceSent), notification.shipments.keys, today)
                            else old(adviceSent)
    {
      var subject := Setting(config.subject);
      var body := Setting(config.body);
      var from := Setting(config.from);
      var to := if config.devMode then config.devEmail else notification.email;
      var messageSubject := replace(subject, ["[customer_name]"], [notification.customer]);
      var tables, sent := RenderTables(notification.shipments, render);
      var message := Message(to, messageSubject,
                             replace(body, ["[customer_name]", "[shipment_data]"], [notification.customer, tables]),
                             from, "custom <" + from + ">");
      outbox := outbox + [message];
      var shipmentsSent: seq<nat> := [];
      if accepts(message) {
        shipmentsSent := sent;
      }
      FlagShipments(shipmentsSent, today);
    }

    /** The loop of `execute` over the customers: one mail each, and the flags of accepted ones. */
    method SendAdvice(data: Notifications, today: int, render: (string, seq<seq<string>>) -> string,
                      replace: (string, seq<string>, seq<string>) -> string, accepts: Message -> bool)
      requires WellFormed(data)
      modifies this
      ensures outbox == old(outbox) + Messages(data, |data.keys|, config, render, replace)
      ensures adviceSent == FlagsAfter(old(adviceSent), data, |data.keys|, config, render, replace, accepts, today)
    {
      var flags0 := adviceSent;
      var outbox0 := outbox;
      for i := 0 to |data.keys|
        invariant outbox == outbox0 + Messages(data, i, config, render, replace)
        invariant adviceSent == FlagsAfter(flags0, data, i, config, render, replace, accepts, today)
      {
        var notification := data.values[data.keys[i]];
        Notify(notification, today, render, replace, accepts);
        ConcatAssoc(outbox0, Messages(data, i, config, render, replace), [MessageFor(config, notification, render, replace)]);
      }
    }

    /**
     * `execute`: nothing when disabled; otherwise one mail per customer in
     * the order of the notification data, and the shipments of each
     * customer whose mail was accepted flagged with today's date.
     */
    method Execute(shipments: seq<Shipment>, today: int, render: (string, seq<seq<string>>) -> string,
                   replace: (string, seq<string>, seq<string>) -> string, accepts: Message -> bool)
      modifies this
      ensures !config.enabled ==> adviceSent == old(adviceSent) && outbox == old(outbox)
      ensures config.enabled ==>
                var data := Group(AllRows(Due(shipments, old(adviceSent), today, config.daysBeforeEta)));
                WellFormed(data) &&
                outbox == old(outbox) + Messages(data, |data.keys|, config, render, replace) &&
                adviceSent == FlagsAfter(old(adviceSent), data, |data.keys|, config, render, replace, accepts, today)
    {
      if !config.enabled {
        return;
      }
      var data := GetShipmentsForNotification(shipments, today);
      if |data.keys| > 0 {
        SendAdvice(data, today, render, replace, accepts);
      }
    }
  }
}
