/** The requisition router: requisition headers (`fake_db_requisitions`) and
    their detail rows (`fake_db_req_details`), two flat lists linked by ReqID. */
module Requisitions {
  import opened Common
  import opened Tables

  /** One line of a create or update request (ReqDetailBase). */
  datatype ReqLine = ReqLine(ProductID: int, rdQuantity: int, WarehouseID: int)

  /** A stored detail row (ReqDetail). */
  datatype ReqDetail = ReqDetail(ReqID: int, ProductID: int, rdQuantity: int, WarehouseID: int)

  /** A stored requisition header: one dict of `fake_db_requisitions`. */
  datatype ReqHeader = ReqHeader(ReqID: int, reDate: Date, reReason: string, StaffID: int)

  /** The request body of create and update (RequisitionCreate). */
  datatype RequisitionCreate = RequisitionCreate(reDate: Date, reReason: string, StaffID: int, details: seq<ReqLine>)

  /** The response shape (Requisition): a header with its detail rows. */
  datatype Requisition = Requisition(ReqID: int, reDate: Date, reReason: string, StaffID: int, details: seq<ReqDetail>)

  /** The id given to the first requisition of an empty store. */
  const FirstReqID: int := 20230001

  const RequisitionNotFound: string := "Requisition not found"

  function HeaderKey(h: ReqHeader): int { h.ReqID }

  function DetailKey(d: ReqDetail): int { d.ReqID }

  function HeaderOf(r: Requisition): ReqHeader
  {
    ReqHeader(r.ReqID, r.reDate, r.reReason, r.StaffID)
  }

  /** The stored rows of one requisition, in stored order. */
  function DetailsOf(details: seq<ReqDetail>, id: int): seq<ReqDetail>
  {
    RowsOf(details, DetailKey, id)
  }

  /** The header copied and given its detail rows (`req.copy()` plus `"details"`). */
  function WithDetails(h: ReqHeader, details: seq<ReqDetail>): Requisition
  {
    Requisition(h.ReqID, h.reDate, h.reReason, h.StaffID, DetailsOf(details, h.ReqID))
  }

  /** The detail row stored for one request line. */
  function ToDetail(id: int, line: ReqLine): ReqDetail
  {
    ReqDetail(id, line.ProductID, line.rdQuantity, line.WarehouseID)
  }

  /** The rows stored for the request lines, one per line in request order. */
  function Tag(lines: seq<ReqLine>, id: int): (rows: seq<ReqDetail>)
    ensures AllTagged(rows, DetailKey, id)
  {
    seq(|lines|, i requires 0 <= i < |lines| => ToDetail(id, lines[i]))
  }

  // ---------------------------------------------------------------------------
  // Listing: filters and pagination
  // ---------------------------------------------------------------------------

  function OnDate(d: Date): ReqHeader -> bool
  {
    (h: ReqHeader) => h.reDate == d
  }

  /** `q_str in str(r["ReqID"]) or q_str in r["reReason"].lower()`, where `q_str`
      is the lower-cased search text. */
  function MatchesText(qLower: string): ReqHeader -> bool
  {
    (h: ReqHeader) => Contains(IntToString(h.ReqID), qLower) || Contains(Lower(h.reReason), qLower)
  }

  /** The headers that `get_requisitions` keeps before slicing. */
  function FilterRequisitions(reqs: seq<ReqHeader>, reDate: Option<Date>, q: Option<string>): seq<ReqHeader>
  {
    var byDate := if reDate.Some? then Filter(reqs, OnDate(reDate.value)) else reqs;
    if q.Some? && q.value != "" then Filter(byDate, MatchesText(Lower(q.value))) else byDate
  }

  /** Whether a header passes the list filters, stated field by field. */
  predicate Selected(h: ReqHeader, reDate: Option<Date>, q: Option<string>)
  {
    && (reDate.Some? ==> h.reDate == reDate.value)
    && (q.Some? && q.value != "" ==>
          Contains(IntToString(h.ReqID), Lower(q.value)) || Contains(Lower(h.reReason), Lower(q.value)))
  }

  /** The filters keep exactly the selected headers. */
  lemma FilterRequisitionsSelects(reqs: seq<ReqHeader>, reDate: Option<Date>, q: Option<string>, h: ReqHeader)
    ensures h in FilterRequisitions(reqs, reDate, q) <==> h in reqs && Selected(h, reDate, q)
  {
    var byDate := if reDate.Some? then Filter(reqs, OnDate(reDate.value)) else reqs;
    if reDate.Some? {
      FilterMembership(reqs, OnDate(reDate.value), h);
    }
    if q.Some? && q.value != "" {
      FilterMembership(byDate, MatchesText(Lower(q.value)), h);
    }
  }

  /** The filters keep stored order: a requisition appended to the store
      comes last in the results, when it is selected. */
  lemma FilterRequisitionsAppend(reqs: seq<ReqHeader>, h: ReqHeader, reDate: Option<Date>, q: Option<string>)
    ensures FilterRequisitions(reqs + [h], reDate, q)
         == FilterRequisitions(reqs, reDate, q) + (if Selected(h, reDate, q) then [h] else [])
  {
    var byDate := if reDate.Some? then Filter(reqs, OnDate(reDate.value)) else reqs;
    var dateOk := reDate.Some? ==> h.reDate == reDate.value;
    var byDate' := if reDate.Some? then Filter(reqs + [h], OnDate(reDate.value)) else reqs + [h];
    if reDate.Some? {
      FilterAppendOne(reqs, OnDate(reDate.value), h);
    }
    assert byDate' == byDate + (if dateOk then [h] else []);
    if q.Some? && q.value != "" {
      var m := MatchesText(Lower(q.value));
      if dateOk {
        FilterAppendOne(byDate, m, h);
      } else {
        assert byDate' == byDate;
      }
    }
  }


  /** The text search ignores ASCII case: two search texts that lower-case to
      the same string select the same requisitions. */
  lemma SearchIgnoresCase(reqs: seq<ReqHeader>, reDate: Option<Date>, q1: string, q2: string)
    requires Lower(q1) == Lower(q2)
    ensures FilterRequisitions(reqs, reDate, Some(q1)) == FilterRequisitions(reqs, reDate, Some(q2))
  {
    assert |Lower(q1)| == |q1| && |Lower(q2)| == |q2|;
  }

  /** The pagination window of the list handler, taken after filtering. */
  function Page(reqs: seq<ReqHeader>, reDate: Option<Date>, q: Option<string>, skip: int, limit: int): seq<ReqHeader>
  {
    Slice(FilterRequisitions(reqs, reDate, q), skip, skip + limit)
  }

  /** What the list handler promises about any output that is the page, entry
      by entry, with detail rows attached: its length, and that every entry is
      a stored, selected header carrying exactly its stored rows. */
  lemma ListingFacts(reqs: seq<ReqHeader>, details: seq<ReqDetail>, reDate: Option<Date>, q: Option<string>,
                     skip: int, limit: int, r: seq<Requisition>)
    requires 0 <= skip
    requires var page := Page(reqs, reDate, q, skip, limit);
      |r| == |page| && forall i | 0 <= i < |r| :: r[i] == WithDetails(page[i], details)
    ensures 0 <= limit ==> |r| == Min(limit, Max(0, |FilterRequisitions(reqs, reDate, q)| - skip))
    ensures forall o | o in r ::
      HeaderOf(o) in reqs && Selected(HeaderOf(o), reDate, q) && o.details == DetailsOf(details, o.ReqID)
  {
    var page := Page(reqs, reDate, q, skip, limit);
    forall o | o in r
      ensures HeaderOf(o) in reqs && Selected(HeaderOf(o), reDate, q) && o.details == DetailsOf(details, o.ReqID)
    {
      var k :| 0 <= k < |r| && r[k] == o;
      assert page[k] in page;
      FilterRequisitionsSelects(reqs, reDate, q, page[k]);
    }
  }

  // ---------------------------------------------------------------------------
  // The seed
  // ---------------------------------------------------------------------------

  /** The initial headers: three requisitions. */
  function SeedRequisitions(): seq<ReqHeader>
  {
    [
      ReqHeader(2023120201, Date(2023, 12, 2), "產線領料", 2),
      ReqHeader(2023120602, Date(2023, 12, 6), "樣品測試", 3),
      ReqHeader(2023121103, Date(2023, 12, 11), "庫存報廢", 1)
    ]
  }

  /** The initial detail rows: two for the first requisition, one for each other. */
  function SeedDetails(): seq<ReqDetail>
  {
    [
      ReqDetail(2023120201, 1, 10, 101),
      ReqDetail(2023120201, 2, 5, 101),
      ReqDetail(2023120602, 2, 2, 102),
      ReqDetail(2023121103, 1, 50, 103)
    ]
  }

  /** The seeded header ids, in stored order; they are unique. */
  lemma SeedKeys()
    ensures Keys(SeedRequisitions(), HeaderKey) == [2023120201, 2023120602, 2023121103]
    ensures UniqueKeys(SeedRequisitions(), HeaderKey)
  {
    var hs := SeedRequisitions();
    assert HeaderKey(hs[0]) == 2023120201 && HeaderKey(hs[1]) == 2023120602;
    assert HeaderKey(hs[2]) == 2023121103;
  }

  /** Every seeded detail row belongs to a seeded header. */
  lemma SeedNoOrphans()
    ensures NoOrphans(SeedRequisitions(), HeaderKey, SeedDetails(), DetailKey)
  {
    var hs, ds := SeedRequisitions(), SeedDetails();
    forall k | 0 <= k < |ds| ensures HasKey(hs, HeaderKey, DetailKey(ds[k])) {
      var j := if k < 2 then 0 else k - 1;
      assert HeaderKey(hs[j]) == DetailKey(ds[k]);
    }
  }

  /** The first seeded requisition owns the first two seeded rows and no others. */
  lemma SeedFirstRequisitionDetails()
    ensures DetailsOf(SeedDetails(), 2023120201) == SeedDetails()[..2]
  {
    var ds := SeedDetails();
    var p := KeyIs(DetailKey, 2023120201);
    var mine, others := ds[..2], ds[2..];
    assert ds == mine + others;
    assert DetailKey(mine[0]) == DetailKey(mine[1]) == 2023120201;
    assert DetailKey(others[0]) == 2023120602 && DetailKey(others[1]) == 2023121103;
    FilterConcat(mine, others, p);
    FilterAll(mine, p);
    FilterNone(others, p);
  }

  /** Creating a requisition on the seeded store gives it id 2023121104, one
      past the largest seeded id. */
  lemma SeedNextId()
    ensures NewKey(SeedRequisitions(), HeaderKey, FirstReqID) == 2023121104
  {
    var s := SeedRequisitions();
    var r := NewKey(s, HeaderKey, FirstReqID);
    assert HeaderKey(s[2]) == 2023121103;
    assert HasKey(s, HeaderKey, r - 1);
  }

  // ---------------------------------------------------------------------------
  // The store
  // ---------------------------------------------------------------------------

  class RequisitionStore {
    /** `fake_db_requisitions` */
    var reqs: seq<ReqHeader>
    /** `fake_db_req_details` */
    var details: seq<ReqDetail>

    /** Header ids are unique and every detail row belongs to a stored header. */
    ghost predicate Valid()
      reads this
    {
      UniqueKeys(reqs, HeaderKey) && NoOrphans(reqs, HeaderKey, details, DetailKey)
    }

    /** The seeded store. */
    constructor ()
      ensures Valid()
      ensures reqs == SeedRequisitions() && details == SeedDetails()
    {
      reqs := SeedRequisitions();
      details := SeedDetails();
      new;
      SeedKeys();
      SeedNoOrphans();
    }

    /** GET /requisitions/: filter, slice, then give each page entry its detail
        rows. Query validation guarantees `skip >= 0` and `limit <= 100`. */
    method GetRequisitions(reDate: Option<Date>, q: Option<string>, skip: int, limit: int)
      returns (r: seq<Requisition>)
      requires 0 <= skip && limit <= 100
      ensures var page := Page(reqs, reDate, q, skip, limit);
        |r| == |page| && forall i | 0 <= i < |r| :: r[i] == WithDetails(page[i], details)
      ensures 0 <= limit ==> |r| == Min(limit, Max(0, |FilterRequisitions(reqs, reDate, q)| - skip))
      ensures forall o | o in r ::
        HeaderOf(o) in reqs && Selected(HeaderOf(o), reDate, q) && o.details == DetailsOf(details, o.ReqID)
    {
      var results := reqs;
      if reDate.Some? {
        results := Filter(results, OnDate(reDate.value));
      }
      if q.Some? && q.value != "" {
        var qStr := Lower(q.value);
        results := Filter(results, MatchesText(qStr));
      }
      var sliced := Slice(results, skip, skip + limit);
      r := AttachDetails(sliced);
      ListingFacts(reqs, details, reDate, q, skip, limit, r);
    }

    /** The loop that builds `output_list`: each header of the page, copied, with its
        stored detail rows. */
    method AttachDetails(page: seq<ReqHeader>) returns (r: seq<Requisition>)
      ensures |r| == |page| && forall i | 0 <= i < |r| :: r[i] == WithDetails(page[i], details)
    {
      r := [];
      var i := 0;
      while i < |page|
        invariant 0 <= i <= |page|
        invariant |r| == i
        invariant forall k | 0 <= k < i :: r[k] == WithDetails(page[k], details)
      {
        r := r + [WithDetails(page[i], details)];
        i := i + 1;
      }
    }

    /** GET /requisitions/{id}: the first header with the id and its detail rows, or 404. */
    function GetRequisition(id: int): (r: Result<Requisition>)
      reads this
      ensures r.Err? <==> !HasKey(reqs, HeaderKey, id)
      ensures r.Err? ==> r.error == NotFound(RequisitionNotFound)
      ensures r.Ok? ==> r.value.ReqID == id && HeaderOf(r.value) in reqs
      ensures r.Ok? ==> r.value.details == DetailsOf(details, id)
    {
      match IndexOfKey(reqs, HeaderKey, id)
      case None => Err(NotFound(RequisitionNotFound))
      case Some(i) => Ok(WithDetails(reqs[i], details))
    }

    /** POST /requisitions/: a header with id `max + 1` (or 20230001), then one row per request line. */
    method CreateRequisition(c: RequisitionCreate) returns (r: Requisition)
      requires Valid()
      modifies this
      ensures Valid()
      ensures r.ReqID == NewKey(old(reqs), HeaderKey, FirstReqID)
      ensures !HasKey(old(reqs), HeaderKey, r.ReqID)
      ensures r == Requisition(r.ReqID, c.reDate, c.reReason, c.StaffID, Tag(c.details, r.ReqID))
      ensures reqs == old(reqs) + [HeaderOf(r)]
      ensures details == old(details) + r.details
      ensures GetRequisition(r.ReqID) == Ok(r)
    {
      var newId := NewKey(reqs, HeaderKey, FirstReqID);
      var header := ReqHeader(newId, c.reDate, c.reReason, c.StaffID);
      reqs := reqs + [header];
      var current := AppendDetails(newId, c.details);
      r := Requisition(newId, c.reDate, c.reReason, c.StaffID, current);
      CreateKeepsInvariant(old(reqs), HeaderKey, old(details), DetailKey, header, current);
      CreateRows(old(reqs), HeaderKey, old(details), DetailKey, newId, current);
      AppendFresh(old(reqs), HeaderKey, header);
      IndexOfUniqueKey(reqs, HeaderKey, |old(reqs)|);
    }

    /** The loop shared by create and update: append one row tagged `id` per
        request line to `fake_db_req_details`, and return the appended rows. */
    method AppendDetails(id: int, lines: seq<ReqLine>) returns (added: seq<ReqDetail>)
      modifies this`details
      ensures added == Tag(lines, id)
      ensures details == old(details) + added
    {
      added := [];
      var i := 0;
      while i < |lines|
        invariant 0 <= i <= |lines|
        invariant added == Tag(lines[..i], id)
        invariant details == old(details) + added
      {
        var d := lines[i];
        var detail := ReqDetail(id, d.ProductID, d.rdQuantity, d.WarehouseID);
        details := details + [detail];
        added := added + [detail];
        i := i + 1;
      }
      assert lines[..i] == lines;
    }

    /** PUT /requisitions/{id}: overwrite the header's date, reason and staff,
        and replace all its detail rows by the request lines; 404 when absent. */
    method UpdateRequisition(id: int, c: RequisitionCreate) returns (r: Result<Requisition>)
      requires Valid()
      modifies this
      ensures Valid()
      ensures !HasKey(old(reqs), HeaderKey, id) ==>
        r == Err(NotFound(RequisitionNotFound)) && reqs == old(reqs) && details == old(details)
      ensures HasKey(old(reqs), HeaderKey, id) ==>
        && r == Ok(Requisition(id, c.reDate, c.reReason, c.StaffID, Tag(c.details, id)))
        && reqs == old(reqs)[IndexOfKey(old(reqs), HeaderKey, id).value := HeaderOf(r.value)]
        && details == Filter(old(details), KeyIsNot(DetailKey, id)) + Tag(c.details, id)
        && GetRequisition(id) == r
        && forall other | other != id :: DetailsOf(details, other) == DetailsOf(old(details), other)
    {
      var found := IndexOfKey(reqs, HeaderKey, id);
      if found.None? {
        return Err(NotFound(RequisitionNotFound));
      }
      var index := found.value;
      var header := ReqHeader(reqs[index].ReqID, c.reDate, c.reReason, c.StaffID);
      reqs := reqs[index := header];
      details := Filter(details, KeyIsNot(DetailKey, id));
      var newDetails := AppendDetails(id, c.details);
      r := Ok(Requisition(header.ReqID, header.reDate, header.reReason, header.StaffID, newDetails));
      UpdateAggregate(old(reqs), HeaderKey, old(details), DetailKey, index, header, newDetails);
      ReplaceRows(old(details), DetailKey, id, newDetails);
      IndexOfUniqueKey(reqs, HeaderKey, index);
    }

    /** DELETE /requisitions/{id}: remove the header and all its detail rows; 404 when absent. */
    method DeleteRequisition(id: int) returns (r: Result<()>)
      requires Valid()
      modifies this
      ensures Valid()
      ensures !HasKey(old(reqs), HeaderKey, id) ==>
        r == Err(NotFound(RequisitionNotFound)) && reqs == old(reqs) && details == old(details)
      ensures HasKey(old(reqs), HeaderKey, id) ==>
        && r == Ok(())
        && reqs == Filter(old(reqs), KeyIsNot(HeaderKey, id))
        && details == Filter(old(details), KeyIsNot(DetailKey, id))
      ensures !HasKey(reqs, HeaderKey, id) && DetailsOf(details, id) == []
      ensures GetRequisition(id) == Err(NotFound(RequisitionNotFound))
      ensures forall other | other != id ::
        && (HasKey(reqs, HeaderKey, other) <==> HasKey(old(reqs), HeaderKey, other))
        && DetailsOf(details, other) == DetailsOf(old(details), other)
    {
      if !HasKey(reqs, HeaderKey, id) {
        NoRowsForAbsentHeader(reqs, HeaderKey, details, DetailKey, id);
        return Err(NotFound(RequisitionNotFound));
      }
      DeleteAggregate(reqs, HeaderKey, details, DetailKey, id);
      reqs := Filter(reqs, KeyIsNot(HeaderKey, id));
      details := Filter(details, KeyIsNot(DetailKey, id));
      r := Ok(());
    }
  }
}
