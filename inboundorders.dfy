/** The inbound-order router: order headers (`fake_db_inbound`) and their detail
    rows (`fake_db_inbound_details`), two flat lists linked by InboundID. */
module InboundOrders {
  import opened Common
  import opened Tables

  /** One line of a create or update request (InboundDetailBase). */
  datatype InboundLine = InboundLine(ProductID: int, idQuantity: int, WarehouseID: int)

  /** A stored detail row (InboundDetail). */
  datatype InboundDetail = InboundDetail(InboundID: int, ProductID: int, idQuantity: int, WarehouseID: int)

  /** A stored order header: one dict of `fake_db_inbound`. */
  datatype InboundHeader = InboundHeader(InboundID: int, ioDate: Date, SupplierID: int, StaffID: int)

  /** The request body of create and update (InboundOrderCreate). */
  datatype InboundOrderCreate = InboundOrderCreate(ioDate: Date, SupplierID: int, StaffID: int, details: seq<InboundLine>)

  /** The response shape (InboundOrder): a header with its detail rows. */
  datatype InboundOrder = InboundOrder(InboundID: int, ioDate: Date, SupplierID: int, StaffID: int, details: seq<InboundDetail>)

  /** The id given to the first order of an empty store. */
  const FirstInboundID: int := 20230001

  const OrderNotFound: string := "Order not found"

  function HeaderKey(h: InboundHeader): int { h.InboundID }

  function DetailKey(d: InboundDetail): int { d.InboundID }

  function HeaderOf(o: InboundOrder): InboundHeader
  {
    InboundHeader(o.InboundID, o.ioDate, o.SupplierID, o.StaffID)
  }

  /** The stored rows of one order, in stored order. */
  function DetailsOf(details: seq<InboundDetail>, id: int): seq<InboundDetail>
  {
    RowsOf(details, DetailKey, id)
  }

  /** The header copied and given its detail rows (`order.copy()` plus `"details"`). */
  function WithDetails(h: InboundHeader, details: seq<InboundDetail>): InboundOrder
  {
    InboundOrder(h.InboundID, h.ioDate, h.SupplierID, h.StaffID, DetailsOf(details, h.InboundID))
  }

  /** The detail row stored for one request line. */
  function ToDetail(id: int, line: InboundLine): InboundDetail
  {
    InboundDetail(id, line.ProductID, line.idQuantity, line.WarehouseID)
  }

  /** The rows stored for the request lines, one per line in request order. */
  function Tag(lines: seq<InboundLine>, id: int): (rows: seq<InboundDetail>)
    ensures AllTagged(rows, DetailKey, id)
  {
    seq(|lines|, i requires 0 <= i < |lines| => ToDetail(id, lines[i]))
  }

  // ---------------------------------------------------------------------------
  // Listing: filters and pagination
  // ---------------------------------------------------------------------------

  function OnDate(d: Date): InboundHeader -> bool
  {
    (h: InboundHeader) => h.ioDate == d
  }

  /** `q in str(o["InboundID"]) or q in str(o["SupplierID"])`: case-sensitive. */
  function MatchesText(q: string): InboundHeader -> bool
  {
    (h: InboundHeader) => Contains(IntToString(h.InboundID), q) || Contains(IntToString(h.SupplierID), q)
  }

  /** The headers that `get_inbound_orders` keeps before slicing. */
  function FilterOrders(orders: seq<InboundHeader>, ioDate: Option<Date>, q: Option<string>): seq<InboundHeader>
  {
    var byDate := if ioDate.Some? then Filter(orders, OnDate(ioDate.value)) else orders;
    if q.Some? && q.value != "" then Filter(byDate, MatchesText(q.value)) else byDate
  }

  /** Whether a header passes the list filters, stated field by field. */
  predicate Selected(h: InboundHeader, ioDate: Option<Date>, q: Option<string>)
  {
    && (ioDate.Some? ==> h.ioDate == ioDate.value)
    && (q.Some? && q.value != "" ==>
          Contains(IntToString(h.InboundID), q.value) || Contains(IntToString(h.SupplierID), q.value))
  }

  /** The filters keep exactly the selected headers. */
  lemma FilterOrdersSelects(orders: seq<InboundHeader>, ioDate: Option<Date>, q: Option<string>, h: InboundHeader)
    ensures h in FilterOrders(orders, ioDate, q) <==> h in orders && Selected(h, ioDate, q)
  {
    var byDate := if ioDate.Some? then Filter(orders, OnDate(ioDate.value)) else orders;
    if ioDate.Some? {
      FilterMembership(orders, OnDate(ioDate.value), h);
    }
    if q.Some? && q.value != "" {
      FilterMembership(byDate, MatchesText(q.value), h);
    }
  }

  /** The filters keep stored order: filtering the store extended by one header
      appends that header to the result when it is selected, and nothing else. */
  lemma FilterOrdersAppend(orders: seq<InboundHeader>, h: InboundHeader, ioDate: Option<Date>, q: Option<string>)
    ensures FilterOrders(orders + [h], ioDate, q)
         == FilterOrders(orders, ioDate, q) + (if Selected(h, ioDate, q) then [h] else [])
  {
    var byDate := if ioDate.Some? then Filter(orders, OnDate(ioDate.value)) else orders;
    var dateOk := ioDate.Some? ==> h.ioDate == ioDate.value;
    var byDate' := if ioDate.Some? then Filter(orders + [h], OnDate(ioDate.value)) else orders + [h];
    if ioDate.Some? {
      FilterAppendOne(orders, OnDate(ioDate.value), h);
    }
    assert byDate' == byDate + (if dateOk then [h] else []);
    if q.Some? && q.value != "" {
      var m := MatchesText(q.value);
      if dateOk {
        FilterAppendOne(byDate, m, h);
      } else {
        assert byDate' == byDate;
      }
    }
  }


  /** A search text with any character other than a digit or '-' (a supplier
      name, say) selects no order at all: the search only looks inside the two
      numeric ids. */
  lemma TextSearchIsNumeric(orders: seq<InboundHeader>, ioDate: Option<Date>, q: string, c: char)
    requires c in q && !IsDigit(c) && c != '-'
    ensures FilterOrders(orders, ioDate, Some(q)) == []
  {
    var r := FilterOrders(orders, ioDate, Some(q));
    if r != [] {
      var h := r[0];
      FilterOrdersSelects(orders, ioDate, Some(q), h);
      NoTextInNumeral(h.InboundID, q, c);
      NoTextInNumeral(h.SupplierID, q, c);
    }
  }

  /** The text search never lower-cases `q`, yet case cannot change what it
      finds: a query with an ASCII capital holds a letter and so finds nothing,
      and so does every query with the same lower-case form. */
  lemma SearchIgnoresCase(orders: seq<InboundHeader>, ioDate: Option<Date>, q1: string, q2: string)
    requires Lower(q1) == Lower(q2)
    ensures FilterOrders(orders, ioDate, Some(q1)) == FilterOrders(orders, ioDate, Some(q2))
  {
    if i :| 0 <= i < |q1| && 'A' <= q1[i] <= 'Z' {
      CapitalFindsNothing(orders, ioDate, q1, q2, i);
    } else if i :| 0 <= i < |q2| && 'A' <= q2[i] <= 'Z' {
      CapitalFindsNothing(orders, ioDate, q2, q1, i);
    } else {
      assert q1 == Lower(q1) && q2 == Lower(q2);
    }
  }

  /** A query with an ASCII capital at position `i`, and any query with the
      same lower-case form, both find nothing. */
  lemma CapitalFindsNothing(orders: seq<InboundHeader>, ioDate: Option<Date>, q1: string, q2: string, i: nat)
    requires Lower(q1) == Lower(q2) && i < |q1| && 'A' <= q1[i] <= 'Z'
    ensures FilterOrders(orders, ioDate, Some(q1)) == []
    ensures FilterOrders(orders, ioDate, Some(q2)) == []
  {
    assert |q2| == |Lower(q2)| == |Lower(q1)| == |q1|;
    assert 'a' <= Lower(q2)[i] <= 'z';
    TextSearchIsNumeric(orders, ioDate, q1, q1[i]);
    TextSearchIsNumeric(orders, ioDate, q2, q2[i]);
  }

  /** The pagination window of the list handler, taken after filtering. */
  function Page(orders: seq<InboundHeader>, ioDate: Option<Date>, q: Option<string>, skip: int, limit: int): seq<InboundHeader>
  {
    Slice(FilterOrders(orders, ioDate, q), skip, skip + limit)
  }

  /** What the list handler promises about any output that is the page, entry
      by entry, with detail rows attached: its length, and that every entry is
      a stored, selected header carrying exactly its stored rows. */
  lemma ListingFacts(orders: seq<InboundHeader>, details: seq<InboundDetail>, ioDate: Option<Date>, q: Option<string>,
                     skip: int, limit: int, r: seq<InboundOrder>)
    requires var page := Page(orders, ioDate, q, skip, limit);
      |r| == |page| && forall i | 0 <= i < |r| :: r[i] == WithDetails(page[i], details)
    ensures 0 <= skip && 0 <= limit ==> |r| == Min(limit, Max(0, |FilterOrders(orders, ioDate, q)| - skip))
    ensures forall o | o in r ::
      HeaderOf(o) in orders && Selected(HeaderOf(o), ioDate, q) && o.details == DetailsOf(details, o.InboundID)
  {
    var page := Page(orders, ioDate, q, skip, limit);
    forall o | o in r
      ensures HeaderOf(o) in orders && Selected(HeaderOf(o), ioDate, q) && o.details == DetailsOf(details, o.InboundID)
    {
      var k :| 0 <= k < |r| && r[k] == o;
      assert page[k] in page;
      FilterOrdersSelects(orders, ioDate, q, page[k]);
    }
  }

  // ---------------------------------------------------------------------------
  // The seed
  // ---------------------------------------------------------------------------

  /** The initial headers: four orders. */
  function SeedOrders(): seq<InboundHeader>
  {
    [
      InboundHeader(2023120101, Date(2023, 12, 1), 1, 2),
      InboundHeader(2023120502, Date(2023, 12, 5), 2, 2),
      InboundHeader(2023121005, Date(2023, 12, 10), 3, 3),
      InboundHeader(2023112803, Date(2023, 11, 28), 1, 2)
    ]
  }

  /** The initial detail rows: two for the first order, one for each other. */
  function SeedDetails(): seq<InboundDetail>
  {
    [
      InboundDetail(2023120101, 1, 50, 101),
      InboundDetail(2023120101, 2, 20, 101),
      InboundDetail(2023120502, 2, 100, 102),
      InboundDetail(2023121005, 1, 10, 101),
      InboundDetail(2023112803, 1, 200, 103)
    ]
  }

  /** The seeded header ids, in stored order; they are unique. */
  lemma SeedKeys()
    ensures Keys(SeedOrders(), HeaderKey) == [2023120101, 2023120502, 2023121005, 2023112803]
    ensures UniqueKeys(SeedOrders(), HeaderKey)
  {
    var hs := SeedOrders();
    assert HeaderKey(hs[0]) == 2023120101 && HeaderKey(hs[1]) == 2023120502;
    assert HeaderKey(hs[2]) == 2023121005 && HeaderKey(hs[3]) == 2023112803;
  }

  /** Every seeded detail row belongs to a seeded header. */
  lemma SeedNoOrphans()
    ensures NoOrphans(SeedOrders(), HeaderKey, SeedDetails(), DetailKey)
  {
    var hs, ds := SeedOrders(), SeedDetails();
    forall k | 0 <= k < |ds| ensures HasKey(hs, HeaderKey, DetailKey(ds[k])) {
      var j := if k < 2 then 0 else k - 1;
      assert HeaderKey(hs[j]) == DetailKey(ds[k]);
    }
  }

  /** The first seeded order owns the first two seeded rows and no others. */
  lemma SeedFirstOrderDetails()
    ensures DetailsOf(SeedDetails(), 2023120101) == SeedDetails()[..2]
  {
    var ds := SeedDetails();
    var p := KeyIs(DetailKey, 2023120101);
    var mine, others := ds[..2], ds[2..];
    assert ds == mine + others;
    assert DetailKey(mine[0]) == DetailKey(mine[1]) == 2023120101;
    assert DetailKey(others[0]) == 2023120502 && DetailKey(others[1]) == 2023121005;
    assert DetailKey(others[2]) == 2023112803;
    FilterConcat(mine, others, p);
    FilterAll(mine, p);
    FilterNone(others, p);
  }

  /** Creating an order on the seeded store gives it id 2023121006, one past
      the largest seeded id. */
  lemma SeedNextId()
    ensures NewKey(SeedOrders(), HeaderKey, FirstInboundID) == 2023121006
  {
    var s := SeedOrders();
    var r := NewKey(s, HeaderKey, FirstInboundID);
    assert HeaderKey(s[2]) == 2023121005;
    assert HasKey(s, HeaderKey, r - 1);
  }

  // ---------------------------------------------------------------------------
  // The store
  // ---------------------------------------------------------------------------

  class InboundOrderStore {
    /** `fake_db_inbound` */
    var orders: seq<InboundHeader>
    /** `fake_db_inbound_details` */
    var details: seq<InboundDetail>

    /** Header ids are unique and every detail row belongs to a stored header. */
    ghost predicate Valid()
      reads this
    {
      UniqueKeys(orders, HeaderKey) && NoOrphans(orders, HeaderKey, details, DetailKey)
    }

    /** The seeded store. */
    constructor ()
      ensures Valid()
      ensures orders == SeedOrders() && details == SeedDetails()
    {
      orders := SeedOrders();
      details := SeedDetails();
      new;
      SeedKeys();
      SeedNoOrphans();
    }

    /** GET /inbound/: filter, slice, then give each page entry its detail rows. */
    method GetInboundOrders(ioDate: Option<Date>, q: Option<string>, skip: int, limit: int)
      returns (r: seq<InboundOrder>)
      ensures var page := Page(orders, ioDate, q, skip, limit);
        |r| == |page| && forall i | 0 <= i < |r| :: r[i] == WithDetails(page[i], details)
      ensures 0 <= skip && 0 <= limit ==> |r| == Min(limit, Max(0, |FilterOrders(orders, ioDate, q)| - skip))
      ensures forall o | o in r ::
        HeaderOf(o) in orders && Selected(HeaderOf(o), ioDate, q) && o.details == DetailsOf(details, o.InboundID)
    {
      var results := orders;
      if ioDate.Some? {
        results := Filter(results, OnDate(ioDate.value));
      }
      if q.Some? && q.value != "" {
        results := Filter(results, MatchesText(q.value));
      }
      var sliced := Slice(results, skip, skip + limit);
      r := AttachDetails(sliced);
      ListingFacts(orders, details, ioDate, q, skip, limit, r);
    }

    /** The loop that builds `output_list`: each header of the page, copied, with its
        stored detail rows. */
    method AttachDetails(page: seq<InboundHeader>) returns (r: seq<InboundOrder>)
      ensures |r| == |page| && forall i | 0 <= i < |r| :: r[i] == WithDetails(page[i], details)
    {
      r := [];
      var i := 0;
      while i < |page|
        invariant 0 <= i <= |page|
        invariant |r| == i
        invariant forall k | 0 <= k < i :: r[k] == WithDetails(page[k], details)
      {
        r := r + [WithDetails(page[i], details)];
        i := i + 1;
      }
    }

    /** GET /inbound/{id}: the first header with the id and its detail rows, or 404. */
    function GetInboundOrder(id: int): (r: Result<InboundOrder>)
      reads this
      ensures r.Err? <==> !HasKey(orders, HeaderKey, id)
      ensures r.Err? ==> r.error == NotFound(OrderNotFound)
      ensures r.Ok? ==> r.value.InboundID == id && HeaderOf(r.value) in orders
      ensures r.Ok? ==> r.value.details == DetailsOf(details, id)
    {
      match IndexOfKey(orders, HeaderKey, id)
      case None => Err(NotFound(OrderNotFound))
      case Some(i) => Ok(WithDetails(orders[i], details))
    }

    /** POST /inbound/: a header with id `max + 1` (or 20230001), then one row per request line. */
    method CreateInboundOrder(c: InboundOrderCreate) returns (r: InboundOrder)
      requires Valid()
      modifies this
      ensures Valid()
      ensures r.InboundID == NewKey(old(orders), HeaderKey, FirstInboundID)
      ensures !HasKey(old(orders), HeaderKey, r.InboundID)
      ensures r == InboundOrder(r.InboundID, c.ioDate, c.SupplierID, c.StaffID, Tag(c.details, r.InboundID))
      ensures orders == old(orders) + [HeaderOf(r)]
      ensures details == old(details) + r.details
      ensures GetInboundOrder(r.InboundID) == Ok(r)
    {
      var newId := NewKey(orders, HeaderKey, FirstInboundID);
      var header := InboundHeader(newId, c.ioDate, c.SupplierID, c.StaffID);
      orders := orders + [header];
      var current := AppendDetails(newId, c.details);
      r := InboundOrder(newId, c.ioDate, c.SupplierID, c.StaffID, current);
      CreateKeepsInvariant(old(orders), HeaderKey, old(details), DetailKey, header, current);
      CreateRows(old(orders), HeaderKey, old(details), DetailKey, newId, current);
      AppendFresh(old(orders), HeaderKey, header);
      IndexOfUniqueKey(orders, HeaderKey, |old(orders)|);
    }

    /** The loop shared by create and update: append one row tagged `id` per
        request line to `fake_db_inbound_details`, and return the appended rows. */
    method AppendDetails(id: int, lines: seq<InboundLine>) returns (added: seq<InboundDetail>)
      modifies this`details
      ensures added == Tag(lines, id)
      ensures details == old(details) + added
    {
      added := [];
      var i := 0;
      while i < |lines|
        invariant 0 <= i <= |lines|
        invariant added == Tag(lines[..i], id)
        invariant details == old(details) + added
      {
        var d := lines[i];
        var detail := InboundDetail(id, d.ProductID, d.idQuantity, d.WarehouseID);
        details := details + [detail];
        added := added + [detail];
        i := i + 1;
      }
      assert lines[..i] == lines;
    }

    /** PUT /inbound/{id}: overwrite the header's date, supplier and staff, and
        replace all its detail rows by the request lines; 404 when absent. */
    method UpdateInboundOrder(id: int, c: InboundOrderCreate) returns (r: Result<InboundOrder>)
      requires Valid()
      modifies this
      ensures Valid()
      ensures !HasKey(old(orders), HeaderKey, id) ==>
        r == Err(NotFound(OrderNotFound)) && orders == old(orders) && details == old(details)
      ensures HasKey(old(orders), HeaderKey, id) ==>
        && r == Ok(InboundOrder(id, c.ioDate, c.SupplierID, c.StaffID, Tag(c.details, id)))
        && orders == old(orders)[IndexOfKey(old(orders), HeaderKey, id).value := HeaderOf(r.value)]
        && details == Filter(old(details), KeyIsNot(DetailKey, id)) + Tag(c.details, id)
        && GetInboundOrder(id) == r
        && forall other | other != id :: DetailsOf(details, other) == DetailsOf(old(details), other)
    {
      var found := IndexOfKey(orders, HeaderKey, id);
      if found.None? {
        return Err(NotFound(OrderNotFound));
      }
      var index := found.value;
      var header := InboundHeader(orders[index].InboundID, c.ioDate, c.SupplierID, c.StaffID);
      orders := orders[index := header];
      details := Filter(details, KeyIsNot(DetailKey, id));
      var newDetails := AppendDetails(id, c.details);
      r := Ok(InboundOrder(header.InboundID, header.ioDate, header.SupplierID, header.StaffID, newDetails));
      UpdateAggregate(old(orders), HeaderKey, old(details), DetailKey, index, header, newDetails);
      ReplaceRows(old(details), DetailKey, id, newDetails);
      IndexOfUniqueKey(orders, HeaderKey, index);
    }

    /** DELETE /inbound/{id}: remove the header and, by cascade, all its detail rows; 404 when absent. */
    method DeleteInboundOrder(id: int) returns (r: Result<()>)
      requires Valid()
      modifies this
      ensures Valid()
      ensures !HasKey(old(orders), HeaderKey, id) ==>
        r == Err(NotFound(OrderNotFound)) && orders == old(orders) && details == old(details)
      ensures HasKey(old(orders), HeaderKey, id) ==>
        && r == Ok(())
        && orders == Filter(old(orders), KeyIsNot(HeaderKey, id))
        && details == Filter(old(details), KeyIsNot(DetailKey, id))
      ensures !HasKey(orders, HeaderKey, id) && DetailsOf(details, id) == []
      ensures GetInboundOrder(id) == Err(NotFound(OrderNotFound))
      ensures forall other | other != id ::
        && (HasKey(orders, HeaderKey, other) <==> HasKey(old(orders), HeaderKey, other))
        && DetailsOf(details, other) == DetailsOf(old(details), other)
    {
      var exists_ := HasKey(orders, HeaderKey, id);
      if !exists_ {
        NoRowsForAbsentHeader(orders, HeaderKey, details, DetailKey, id);
        return Err(NotFound(OrderNotFound));
      }
      DeleteAggregate(orders, HeaderKey, details, DetailKey, id);
      orders := Filter(orders, KeyIsNot(HeaderKey, id));
      details := Filter(details, KeyIsNot(DetailKey, id));
      r := Ok(());
    }
  }
}
