/**
 * The activity log of custom_activity (`ActivityServices`): for a system
 * event on a node it picks a category, the company concerned and a one-line
 * description, and saves an Activity node, with the changed fields attached
 * when the event is a field edit.
 *
 * Nodes are plain records: an entity reference is its target id and the
 * HTML link of its target, and a reference that is missing or empty is
 * `None`. A PHP fatal error (a method called on NULL, a variable that was
 * never assigned) is the `Fatal` outcome.
 */
module Activity {
  import opened Php

  /** The target of an entity reference: its id and its rendered link. */
  datatype Ref = Ref(nid: nat, link: string)

  /** The fields of a node that the log reads. */
  datatype Node = Node(
    nid: nat,
    nodeType: string,
    title: string,
    link: string,
    supplier: Option<Ref>,               // field_supplier
    customer: Option<Ref>,               // field_customer
    counterPartyType: string,            // field_counter_party_type (NULL reads as "")
    memoType: string,                    // field_memo_type (NULL reads as "")
    contractCustomer: Option<Ref>,       // field_sales_contract -> field_customer
    destination: Option<string>)         // field_destination -> name

  /** One item of a field value, as the change tracker records it. */
  datatype Item = Item(value: Option<string>, targetId: Option<nat>)

  /** A recorded field value: a list of items, a scalar, or NULL. */
  datatype RawValue = Items(items: seq<Item>) | Scalar(s: string) | Null

  /** One entry of `changed_fields`. */
  datatype ChangedField = ChangedField(fieldName: string, fieldLabel: string, oldValue: RawValue, newValue: RawValue)

  /** The `$options` of `log_activity`. */
  datatype Options = Options(
    node: Node,
    count: nat,
    destination: string,
    warehouse: Option<string>,
    vessel: Option<string>,
    changedFields: map<nat, seq<ChangedField>>,
    fileParents: seq<Node>)              // the nodes whose field_files holds the node, in load order

  /** A possibly NULL string as PHP interpolates it. */
  function Interpolate(s: Option<string>): string
  {
    if s.Some? then s.value else ""
  }

  /** "FCL" or "FCLs": the plural is used for every count but 1. */
  function Fcl(count: nat): (word: string)
    ensures word == "FCL" <==> count == 1
    ensures word == "FCLs" <==> count != 1
  {
    "FCL" + (if count == 1 then "" else "s")
  }

  /** "<count> FCL(s)". */
  function Fcls(count: nat): string
  {
    NatToString(count) + " " + Fcl(count)
  }

  /** The category table, with the "Purchasing "/"Sales " prefix for memos; NULL for other content types. */
  function Category(contentType: string, counterPartyType: string): (category: Option<string>)
  {
    var memoPrefix := if contentType == "memo" then (if Lower(counterPartyType) == "purchasing" then "Purchasing " else "Sales ") else "";
    if contentType == "container" then Some("Container")
    else if contentType == "customer" then Some("Customer")
    else if contentType == "memo" then Some(memoPrefix + "D/C Note")
    else if contentType == "file" then Some("File")
    else if contentType == "invoice" then Some("Invoice")
    else if contentType == "purchase_contract" then Some("Purchase Contract")
    else if contentType == "release" then Some("Release")
    else if contentType == "sales_contract" then Some("Sales Contract")
    else if contentType == "shipment" then Some("Shipment")
    else if contentType == "supplier" then Some("Supplier")
    else if contentType == "trucker" then Some("Trucker")
    else None
  }

  /** A memo's category is the purchasing one exactly when its counter party is purchasing, in any letter case. */
  lemma MemoCategory(counterPartyType: string)
    ensures Category("memo", counterPartyType) == Some("Purchasing D/C Note") <==> Lower(counterPartyType) == "purchasing"
    ensures Category("memo", counterPartyType) == Some("Sales D/C Note") <==> Lower(counterPartyType) != "purchasing"
  {
    if Lower(counterPartyType) == "purchasing" {
      assert "Purchasing " + "D/C Note" == "Purchasing D/C Note";
    } else {
      assert "Sales " + "D/C Note" == "Sales D/C Note";
      assert "Sales D/C Note"[0] != "Purchasing D/C Note"[0];
    }
  }

  /** The company an event is filed under, and the type word that names it (none for the node itself). */
  datatype Company = Company(companyType: Option<string>, nid: nat, link: string)

  /** The supplier if there is one, else the customer if there is one, else the node itself. */
  function SelectCompany(node: Node): (c: Company)
    ensures c.companyType == Some("supplier") <==> node.supplier.Some?
    ensures c.companyType == Some("customer") <==> node.supplier.None? && node.customer.Some?
    ensures c.companyType.None? <==> node.supplier.None? && node.customer.None?
    ensures c.companyType.None? ==> c.nid == node.nid && c.link == node.link
    ensures c.companyType.Some? ==> Some(Ref(c.nid, c.link)) in {node.supplier, node.customer}
  {
    if node.supplier.Some? then Company(Some("supplier"), node.supplier.value.nid, node.supplier.value.link)
    else if node.customer.Some? then Company(Some("customer"), node.customer.value.nid, node.customer.value.link)
    else Company(None, node.nid, node.link)
  }

  /**
   * The place a release is said to come from, as the code computes it: the
   * vessel when a warehouse is given, nothing when it is not.
   */
  function ReleaseLocation(warehouse: Option<string>, vessel: Option<string>): (location: string)
  {
    if warehouse.None? || IsEmptyString(warehouse.value) then "" else Interpolate(vessel)
  }

  /** The release location never names the warehouse (unless the vessel has the same name). */
  lemma ReleaseLocationIsVesselOrNothing(warehouse: Option<string>, vessel: Option<string>)
    ensures warehouse.Some? && !IsEmptyString(warehouse.value) ==> ReleaseLocation(warehouse, vessel) == Interpolate(vessel)
    ensures warehouse.None? || IsEmptyString(warehouse.value) ==> ReleaseLocation(warehouse, vessel) == ""
    ensures ReleaseLocation(warehouse, vessel) == Interpolate(warehouse) && warehouse.Some? && warehouse.value != "" ==>
              warehouse == vessel
  {
  }

  /** A description told by the user: it opens with the user's link and a space and ends with a full stop. */
  predicate SaidBy(userLink: string, text: string)
  {
    userLink + " " <= text && text[|text| - 1] == '.'
  }

  /** Every description: the user's link, a space, the sentence, a full stop. */
  function Say(userLink: string, sentence: string): (text: string)
    ensures SaidBy(userLink, text)
    ensures |text| == |userLink| + |sentence| + 2
  {
    userLink + " " + sentence + "."
  }

  /** What `log_activity` hands to `createActivityNode`, or why it does not. */
  datatype Description =
    | Entry(activityType: string, category: Option<string>, description: string, company: Option<nat>)
    | NotLogged   // no such activity type: nothing is created, NULL is returned
    | Fatal       // the event's node lacks a reference the template dereferences

  /** The activity types `log_activity` knows. */
  predicate KnownActivity(activityType: string)
  {
    activityType == "FieldEdit" || activityType == "MemoCreated" || CountedActivity(activityType) ||
    activityType == "ContainerAddedToInventory" || StatusActivity(activityType)
  }

  /** The events that name a count of FCLs. */
  predicate CountedActivity(activityType: string)
  {
    activityType == "PcCreated" || activityType == "DestinationsUpdated" || activityType == "ContainersAddedToShipment" ||
    activityType == "ContainersSentToWarehouse" || activityType == "ContainersAddedToSc" || activityType == "ScCreated" ||
    activityType == "ContainersAddedToRelease" || activityType == "ContainersAddedToInvoice" ||
    activityType == "ContainersReclaimed"
  }

  /** The status changes. */
  predicate StatusActivity(activityType: string)
  {
    activityType == "Cancel" || activityType == "Uncancel" || activityType == "Close" || activityType == "Re-open"
  }

  /** The FieldEdit templates, chosen by content type; a file is described through the last node that holds it. */
  function DescribeFieldEdit(userLink: string, options: Options): (d: Description)
    ensures d.Entry? ==> SaidBy(userLink, d.description)
    ensures d.Entry? ==> d.activityType == "FieldEdit"
    ensures d != NotLogged
    ensures d == Fatal <==> options.node.nodeType == "file" && options.fileParents == []
    ensures d.Entry? ==> d.category == Category(options.node.nodeType, options.node.counterPartyType)
    ensures d.Entry? ==> d.company == Some(SelectCompany(options.node).nid)
  {
    var node := options.node;
    var contentType := node.nodeType;
    var company := SelectCompany(node);
    var category := Category(contentType, node.counterPartyType);
    if contentType == "container" then
      Entry("FieldEdit", category,
            Say(userLink, "modified container " + node.link + " referencing " + Interpolate(company.companyType) + " " + company.link),
            Some(company.nid))
    else if contentType == "file" then
      if options.fileParents == [] then Fatal
      else
        var parent := options.fileParents[|options.fileParents| - 1];
        var parentCompany := SelectCompany(parent);
        Entry("FieldEdit", category,
              Say(userLink, "modified file " + node.title + " on " + parent.link + " referencing " +
                            Interpolate(parentCompany.companyType) + " " + parentCompany.link),
              Some(company.nid))
    else if contentType in {"customer", "supplier", "trucker"} then
      Entry("FieldEdit", category, Say(userLink, "modified " + contentType + " " + company.link), Some(company.nid))
    else
      Entry("FieldEdit", category,
            Say(userLink, "modified " + node.link + " referencing " + Interpolate(company.companyType) + " " + company.link),
            Some(company.nid))
  }

  /** The target id of a reference, NULL when it is empty. */
  function RefNid(r: Option<Ref>): Option<nat>
  {
    if r.Some? then Some(r.value.nid) else None
  }

  /** A counting event whose template dereferences a reference the node lacks. */
  predicate MissingReference(activityType: string, node: Node)
  {
    (activityType == "PcCreated" && node.supplier.None?) ||
    (activityType == "ContainersAddedToShipment" && (node.supplier.None? || node.destination.None?)) ||
    (activityType in {"ContainersAddedToSc", "ScCreated", "ContainersAddedToInvoice", "ContainersReclaimed"} &&
     node.customer.None?) ||
    (activityType == "ContainersAddedToRelease" && node.contractCustomer.None?)
  }

  /** The templates of the counting events, which name a count of FCLs. */
  function DescribeCounted(userLink: string, activityType: string, options: Options): (d: Description)
    requires CountedActivity(activityType)
    ensures d != NotLogged
    ensures d.Entry? ==> d.activityType == activityType
    ensures d.Entry? ==> SaidBy(userLink, d.description)
    ensures d == Fatal <==> MissingReference(activityType, options.node)
    ensures d.Entry? && activityType in {"PcCreated", "DestinationsUpdated", "ContainersAddedToShipment"} ==>
              d.company == RefNid(options.node.supplier)
    ensures d.Entry? && activityType in {"ContainersAddedToSc", "ScCreated", "ContainersAddedToInvoice", "ContainersReclaimed"} ==>
              d.company == RefNid(options.node.customer)
    ensures d.Entry? && activityType == "ContainersAddedToRelease" ==> d.company == RefNid(options.node.contractCustomer)
    ensures d.Entry? && activityType == "ContainersSentToWarehouse" ==> d.company == Some(options.node.nid)
    ensures d.Entry? && activityType == "PcCreated" ==> d.category == Some("Purchase Contract")
    ensures d.Entry? && activityType in {"DestinationsUpdated", "ContainersSentToWarehouse"} ==> d.category == Some("Container")
    ensures d.Entry? && activityType == "ContainersAddedToShipment" ==> d.category == Some("Shipment")
    ensures d.Entry? && activityType in {"ContainersAddedToSc", "ScCreated", "ContainersReclaimed"} ==> d.category == Some("Sales Contract")
    ensures d.Entry? && activityType == "ContainersAddedToRelease" ==> d.category == Some("Release")
    ensures d.Entry? && activityType == "ContainersAddedToInvoice" ==> d.category == Some("Invoice")
  {
    var node := options.node;
    var n := Fcls(options.count);
    if activityType == "PcCreated" then
      if node.supplier.None? then Fatal
      else Entry(activityType, Some("Purchase Contract"),
                 Say(userLink, "created " + node.link + " for " + n + " from " + node.supplier.value.link),
                 Some(node.supplier.value.nid))
    else if activityType == "DestinationsUpdated" then
      Entry(activityType, Some("Container"),
            Say(userLink, "updated destination to " + options.destination + " for " + n + " on " + node.link),
            RefNid(node.supplier))
    else if activityType == "ContainersAddedToShipment" then
      if node.supplier.None? || node.destination.None? then Fatal
      else Entry(activityType, Some("Shipment"),
                 Say(userLink, "added " + n + " to " + node.supplier.value.link + " " + node.link + " to " + node.destination.value),
                 Some(node.supplier.value.nid))
    else if activityType == "ContainersSentToWarehouse" then
      Entry(activityType, Some("Container"),
            Say(userLink, "sent " + n + " from " + node.link + " to " + Interpolate(options.warehouse)),
            Some(node.nid))
    else if activityType == "ContainersAddedToSc" then
      if node.customer.None? then Fatal
      else Entry(activityType, Some("Sales Contract"),
                 Say(userLink, "allocated " + n + " to " + node.customer.value.link + " on " + node.link),
                 Some(node.customer.value.nid))
    else if activityType == "ScCreated" then
      if node.customer.None? then Fatal
      else Entry(activityType, Some("Sales Contract"),
                 Say(userLink, "created " + node.link + " for " + n + " to " + node.customer.value.link),
                 Some(node.customer.value.nid))
    else if activityType == "ContainersAddedToRelease" then
      if node.contractCustomer.None? then Fatal
      else Entry(activityType, Some("Release"),
                 Say(userLink, "released " + n + " from " + ReleaseLocation(options.warehouse, options.vessel) +
                               " to " + node.contractCustomer.value.link),
                 Some(node.contractCustomer.value.nid))
    else if activityType == "ContainersAddedToInvoice" then
      if node.customer.None? then Fatal
      else Entry(activityType, Some("Invoice"),
                 Say(userLink, "issued " + node.link + " for " + n + " to " + node.customer.value.link),
                 Some(node.customer.value.nid))
    else
      if node.customer.None? then Fatal
      else Entry(activityType, Some("Sales Contract"),
                 Say(userLink, "reclaimed " + n + " from " + node.customer.value.link + " contract " + node.link),
                 Some(node.customer.value.nid))
  }

  /** The party a memo is issued to: the supplier of a purchasing memo (in any letter case), the customer otherwise. */
  function CounterParty(node: Node): Option<Ref>
  {
    if Lower(node.counterPartyType) == "purchasing" then node.supplier else node.customer
  }

  /** MemoCreated: the memo is issued to the supplier (purchasing) or the customer (otherwise). */
  function DescribeMemo(userLink: string, node: Node): (d: Description)
    ensures d.Entry? ==> SaidBy(userLink, d.description)
    ensures d != NotLogged
    ensures d == Fatal <==> CounterParty(node).None?
    ensures d.Entry? ==> d.activityType == node.memoType + "MemoCreated"
    ensures d.Entry? ==> d.category == Category("memo", node.counterPartyType)
    ensures d.Entry? ==> d.company == RefNid(CounterParty(node))
    ensures d.Entry? ==> d.description == Say(userLink, "issued " + node.link + " to " + CounterParty(node).value.link)
  {
    var purchasing := Lower(node.counterPartyType) == "purchasing";
    var counterParty := if purchasing then node.supplier else node.customer;
    MemoCategory(node.counterPartyType);
    if counterParty.None? then Fatal
    else Entry(node.memoType + "MemoCreated",
               Some(if purchasing then "Purchasing D/C Note" else "Sales D/C Note"),
               Say(userLink, "issued " + node.link + " to " + counterParty.value.link),
               Some(counterParty.value.nid))
  }

  /** ContainerAddedToInventory: the container and its supplier, filed under the supplier. */
  function DescribeInventory(userLink: string, node: Node): (d: Description)
    ensures d != NotLogged
    ensures d == Fatal <==> node.supplier.None?
    ensures d.Entry? ==> d.activityType == "ContainerAddedToInventory" && d.category == Some("Container")
    ensures d.Entry? ==> d.company == RefNid(node.supplier)
    ensures d.Entry? ==> d.description == Say(userLink, "added " + node.link + " from " + node.supplier.value.link + " to Inventory")
  {
    if node.supplier.None? then Fatal
    else Entry("ContainerAddedToInventory", Some("Container"),
               Say(userLink, "added " + node.link + " from " + node.supplier.value.link + " to Inventory"),
               Some(node.supplier.value.nid))
  }

  /** The past-tense verb of a status event. */
  function StatusVerb(activityType: string): string
  {
    if activityType == "Cancel" then "canceled"
    else if activityType == "Uncancel" then "uncanceled"
    else if activityType == "Close" then "closed"
    else "re-opened"
  }

  /** The status events: the node's own category and company. */
  function DescribeStatus(userLink: string, verb: string, node: Node, activityType: string): (d: Description)
    ensures d.Entry? ==> SaidBy(userLink, d.description)
    ensures d.Entry? && d.activityType == activityType
    ensures d.category == Category(node.nodeType, node.counterPartyType)
    ensures d.company == Some(SelectCompany(node).nid)
    ensures d.description == Say(userLink, verb + " " + node.link)
  {
    var company := SelectCompany(node);
    Entry(activityType, Category(node.nodeType, node.counterPartyType), Say(userLink, verb + " " + node.link), Some(company.nid))
  }

  /** The switch of `log_activity` over the activity type. */
  function Describe(userLink: string, activityType: string, options: Options): (d: Description)
    ensures d == NotLogged <==> !KnownActivity(activityType)
    ensures d.Entry? ==> SaidBy(userLink, d.description)
  {
    if activityType == "FieldEdit" then DescribeFieldEdit(userLink, options)
    else if activityType == "MemoCreated" then DescribeMemo(userLink, options.node)
    else if CountedActivity(activityType) then
      DescribeCounted(userLink, activityType, options)
    else if activityType == "ContainerAddedToInventory" then DescribeInventory(userLink, options.node)
    else if StatusActivity(activityType) then DescribeStatus(userLink, StatusVerb(activityType), options.node, activityType)
    else NotLogged
  }

  /** Only the MemoCreated event is filed under another type than its own, and never as a field edit. */
  lemma MemoCreatedTypeRewrite(userLink: string, activityType: string, options: Options)
    requires Describe(userLink, activityType, options).Entry?
    ensures var entry := Describe(userLink, activityType, options);
            activityType != "MemoCreated" ==> entry.activityType == activityType
    ensures var entry := Describe(userLink, activityType, options);
            activityType == "MemoCreated" ==> entry.activityType == options.node.memoType + "MemoCreated" &&
                                              entry.activityType != "FieldEdit"
  {
    if activityType == "MemoCreated" {
      var t := options.node.memoType + "MemoCreated";
      assert t[|t| - 1] == 'd';
      assert "FieldEdit"[|"FieldEdit"| - 1] == 't';
    }
  }

  /** The entry of an event is a field edit, and so carries the changed fields, exactly when the event is one. */
  lemma OnlyFieldEditsRecordChanges(userLink: string, activityType: string, options: Options)
    requires Describe(userLink, activityType, options).Entry?
    ensures Describe(userLink, activityType, options).activityType == "FieldEdit" <==> activityType == "FieldEdit"
  {
    MemoCreatedTypeRewrite(userLink, activityType, options);
  }

  /** The counting templates name the count with the plural rule. */
  lemma CountedDescriptionsUsePluralRule(count: nat)
    ensures count == 1 ==> Fcls(count) == "1 FCL"
    ensures count != 1 ==> Fcls(count) == NatToString(count) + " FCLs"
  {
    if count == 1 {
      assert NatToString(1) == "1";
    }
  }

  /** PcCreated: the contract, the count and the supplier, filed under the supplier. */
  lemma PcCreatedDescription(userLink: string, options: Options)
    requires options.node.supplier.Some?
    ensures Describe(userLink, "PcCreated", options) ==
            Entry("PcCreated", Some("Purchase Contract"),
                  Say(userLink, "created " + options.node.link + " for " + Fcls(options.count) + " from " +
                                options.node.supplier.value.link),
                  Some(options.node.supplier.value.nid))
  {
  }

  /** A release with a warehouse is described as coming from the vessel. */
  lemma ReleaseDescribedFromVessel(userLink: string, options: Options)
    requires options.node.contractCustomer.Some?
    requires options.warehouse.Some? && !IsEmptyString(options.warehouse.value)
    ensures Describe(userLink, "ContainersAddedToRelease", options) ==
            Entry("ContainersAddedToRelease", Some("Release"),
                  Say(userLink, "released " + Fcls(options.count) + " from " + Interpolate(options.vessel) + " to " +
                                options.node.contractCustomer.value.link),
                  Some(options.node.contractCustomer.value.nid))
  {
  }

  /** A field edit of a customer, supplier or trucker names the content type and the node's company. */
  lemma CompanyEditTemplate(userLink: string, options: Options)
    requires options.node.nodeType in {"customer", "supplier", "trucker"}
    ensures Describe(userLink, "FieldEdit", options).description ==
            Say(userLink, "modified " + options.node.nodeType + " " + SelectCompany(options.node).link)
  {
  }

  /** A field edit of a container names the container and the company it references. */
  lemma ContainerEditTemplate(userLink: string, options: Options)
    requires options.node.nodeType == "container"
    ensures var company := SelectCompany(options.node);
            Describe(userLink, "FieldEdit", options) ==
            Entry("FieldEdit", Some("Container"),
                  Say(userLink, "modified container " + options.node.link + " referencing " +
                                Interpolate(company.companyType) + " " + company.link),
                  Some(company.nid))
  {
  }

  /**
   * A field edit of a file names the file's title and the last node found
   * holding it, and the company that node references; the entry itself is
   * filed under the file's own company.
   */
  lemma FileEditTemplate(userLink: string, options: Options)
    requires options.node.nodeType == "file" && options.fileParents != []
    ensures var parent := options.fileParents[|options.fileParents| - 1];
            var parentCompany := SelectCompany(parent);
            Describe(userLink, "FieldEdit", options) ==
            Entry("FieldEdit", Some("File"),
                  Say(userLink, "modified file " + options.node.title + " on " + parent.link + " referencing " +
                                Interpolate(parentCompany.companyType) + " " + parentCompany.link),
                  Some(SelectCompany(options.node).nid))
  {
  }

  /** A field edit of any other content type names the node and the company it references. */
  lemma ReferencingEditTemplate(userLink: string, options: Options)
    requires options.node.nodeType !in {"container", "file", "customer", "supplier", "trucker"}
    ensures var company := SelectCompany(options.node);
            Describe(userLink, "FieldEdit", options) ==
            Entry("FieldEdit", Category(options.node.nodeType, options.node.counterPartyType),
                  Say(userLink, "modified " + options.node.link + " referencing " +
                                Interpolate(company.companyType) + " " + company.link),
                  Some(company.nid))
  {
  }

  /** The four status events differ only in the verb; each is filed under the node's category and company. */
  lemma StatusEntries(userLink: string, activityType: string, options: Options)
    requires StatusActivity(activityType)
    ensures var verb := if activityType == "Cancel" then "canceled"
                        else if activityType == "Uncancel" then "uncanceled"
                        else if activityType == "Close" then "closed"
                        else "re-opened";
            Describe(userLink, activityType, options) ==
            Entry(activityType, Category(options.node.nodeType, options.node.counterPartyType),
                  Say(userLink, verb + " " + options.node.link), Some(SelectCompany(options.node).nid))
  {
    assert Describe(userLink, activityType, options) == DescribeStatus(userLink, StatusVerb(activityType), options.node, activityType);
  }

  /** The value of a field as a modification records it. */
  datatype FieldValue = Text(text: string) | Id(id: nat) | Raw(raw: RawValue)

  /** `empty()` on a recorded field value. */
  predicate EmptyRaw(raw: RawValue)
  {
    match raw
    case Null => true
    case Items(items) => items == []
    case Scalar(s) => IsEmptyString(s)
  }

  /** The first item's value, else its target id, else the raw value; `noneForEmpty` inserts the "NONE" step. */
  function ExtractValue(raw: RawValue, noneForEmpty: bool): FieldValue
  {
    if raw.Items? && raw.items != [] && raw.items[0].value.Some? then Text(raw.items[0].value.value)
    else if raw.Items? && raw.items != [] && raw.items[0].targetId.Some? then Id(raw.items[0].targetId.value)
    else if noneForEmpty && EmptyRaw(raw) then Text("NONE")
    else Raw(raw)
  }

  /** The old value: "NONE" stands for an empty one. */
  function OldValueOf(raw: RawValue): (v: FieldValue)
    ensures EmptyRaw(raw) ==> v == Text("NONE")
  {
    ExtractValue(raw, true)
  }

  /** The new value: an empty one is kept as it is. */
  function NewValueOf(raw: RawValue): (v: FieldValue)
    ensures EmptyRaw(raw) ==> v == Raw(raw)
  {
    ExtractValue(raw, false)
  }

  /** Old and new values are read the same way except that only an empty old value becomes "NONE". */
  lemma OldNewAgree(raw: RawValue)
    ensures !EmptyRaw(raw) ==> OldValueOf(raw) == NewValueOf(raw)
    ensures EmptyRaw(raw) ==> OldValueOf(raw) == Text("NONE") && NewValueOf(raw) == Raw(raw)
    ensures raw.Items? && raw.items != [] && raw.items[0].value.Some? ==>
              OldValueOf(raw) == NewValueOf(raw) == Text(raw.items[0].value.value)
    ensures raw.Items? && raw.items != [] && raw.items[0].value.None? && raw.items[0].targetId.Some? ==>
              OldValueOf(raw) == NewValueOf(raw) == Id(raw.items[0].targetId.value)
  {
  }

  /** One row of field_modifications. */
  datatype Modification = Modification(fieldName: string, fieldLabel: string, oldValue: FieldValue, newValue: FieldValue)

  function ModificationOf(field: ChangedField): Modification
  {
    Modification(field.fieldName, field.fieldLabel, OldValueOf(field.oldValue), NewValueOf(field.newValue))
  }

  /** The changed fields recorded for the event's node; none when there is no entry for it. */
  function ChangedFieldsOf(options: Options): seq<ChangedField>
  {
    if options.node.nid in options.changedFields then options.changedFields[options.node.nid] else []
  }

  /** The modification rows of an Activity node: one per changed field, in order, for a field edit; none otherwise. */
  predicate RecordsChanges(activityType: string, options: Options, mods: seq<Modification>)
  {
    var fields := ChangedFieldsOf(options);
    if activityType == "FieldEdit" then
      |mods| == |fields| && forall i :: 0 <= i < |fields| ==> mods[i] == ModificationOf(fields[i])
    else mods == []
  }

  /** The Activity node as saved. */
  datatype ActivityNode = ActivityNode(
    affectedEntity: nat,
    category: Option<string>,
    company: Option<nat>,
    description: string,
    modifications: seq<Modification>)

  /** `SAVED_NEW`, what saving a new node returns. */
  const SavedNew: nat := 1

  /** What `log_activity` returns, or the fatal error that stops it. */
  datatype LogResult = ReturnedNull | ReturnedStatus(status: nat) | FatalError

  /** The log service of the current user. */
  class ActivityService {
    const username: string
    const userLink: string
    /** The Activity nodes saved so far, oldest first. */
    var saved: seq<ActivityNode>

    constructor(username: string, userLink: string)
      ensures this.username == username && this.userLink == userLink && saved == []
    {
      this.username := username;
      this.userLink := userLink;
      saved := [];
    }

    /** The changed fields of the node, in order, turned into modification rows. */
    static method BuildModifications(fields: seq<ChangedField>) returns (mods: seq<Modification>)
      ensures |mods| == |fields|
      ensures forall i :: 0 <= i < |fields| ==> mods[i] == ModificationOf(fields[i])
    {
      mods := [];
      for i := 0 to |fields|
        invariant |mods| == i
        invariant forall j :: 0 <= j < i ==> mods[j] == ModificationOf(fields[j])
      {
        var field := fields[i];
        var oldValue := OldValueOf(field.oldValue);
        var newValue := NewValueOf(field.newValue);
        mods := mods + [Modification(field.fieldName, field.fieldLabel, oldValue, newValue)];
      }
    }

    /** `createActivityNode`: modifications are attached only to a field edit; the node's changed fields default to none. */
    method CreateActivityNode(activityType: string, category: Option<string>, description: string, company: Option<nat>,
                              options: Options) returns (status: nat)
      modifies this
      ensures status == SavedNew
      ensures |saved| == |old(saved)| + 1 && saved[..|old(saved)|] == old(saved)
      ensures var node := saved[|saved| - 1];
              node.affectedEntity == options.node.nid && node.category == category &&
              node.company == company && node.description == description
      ensures RecordsChanges(activityType, options, saved[|saved| - 1].modifications)
    {
      var mods := [];
      if activityType == "FieldEdit" {
        mods := BuildModifications(ChangedFieldsOf(options));
      }
      saved := saved + [ActivityNode(options.node.nid, category, company, description, mods)];
      status := SavedNew;
    }

    /** `log_activity`: nothing in maintenance mode or for an unknown type; otherwise one Activity node. */
    method LogActivity(activityType: string, options: Options, maintenanceMode: bool) returns (result: LogResult)
      modifies this
      ensures maintenanceMode ==> result == ReturnedNull && saved == old(saved)
      ensures !maintenanceMode ==> match Describe(userLink, activityType, options)
              case NotLogged => result == ReturnedNull && saved == old(saved)
              case Fatal => result == FatalError && saved == old(saved)
              case Entry(t, category, description, company) =>
                result == ReturnedStatus(SavedNew) && |saved| == |old(saved)| + 1 &&
                saved[..|old(saved)|] == old(saved) &&
                saved[|saved| - 1].description == description && saved[|saved| - 1].category == category &&
                saved[|saved| - 1].company == company && saved[|saved| - 1].affectedEntity == options.node.nid &&
                RecordsChanges(t, options, saved[|saved| - 1].modifications)
    {
      if maintenanceMode {
        return ReturnedNull;
      }
      var d := Describe(userLink, activityType, options);
      match d {
        case NotLogged => result := ReturnedNull;
        case Fatal => result := FatalError;
        case Entry(t, category, description, company) =>
          var status := CreateActivityNode(t, category, description, company, options);
          result := ReturnedStatus(status);
      }
    }
  }
}
