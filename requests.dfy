/** A SODA GET request (soda.go): endpoint, format, filters and query,
    the guard against paging without an order, and the count, field-list
    and last-modified requests that override parts of the query for one
    call and restore them afterwards.

    The transport is not modelled: where the source performs the request,
    the model produces the `Request` that would be sent, and what the
    transport and the body decoder give back is an input of the method. */
module Requests {
  import opened Text
  import opened Outcomes
  import opened Queries
  import opened Resources

  /** The format used when none is set. */
  function DefaultFormat(format: string): (f: string)
    ensures format == "" ==> f == "json"
    ensures format != "" ==> f == format
  {
    if format == "" then "json" else format
  }

  /** uint in the source is 64 bits wide. */
  const UintModulus: int := 0x1_0000_0000_0000_0000

  /** The conversion uint(i) of a signed integer: wraps negative values around. */
  function ToUint(i: int): (n: nat)
    ensures n < UintModulus
    ensures 0 <= i < UintModulus ==> n == i
    ensures (n - i) % UintModulus == 0
  {
    i % UintModulus
  }

  /** The query of a count request: only count(*), and no order. */
  function CountQuery(q: QuerySpec): (r: QuerySpec)
    ensures r.select == ["count(*)"] && r.order == []
    ensures r.(select := q.select, order := q.order) == q
    ensures NeedsOrder(r) <==> q.offset > 0
  {
    q.(select := ["count(*)"], order := [])
  }

  /** The query of a field-list or last-modified request: all columns, no limit, no order. */
  function BareQuery(q: QuerySpec): (r: QuerySpec)
    ensures r.select == [] && r.limit == 0 && r.order == []
    ensures r.(select := q.select, limit := q.limit, order := q.order) == q
    ensures NeedsOrder(r) <==> q.offset > 0
  {
    q.(select := [], limit := 0, order := [])
  }

  /** The count in a decoded count reply (the Count strings of its rows):
      the first row's count read by `atoi` and converted to uint; an error
      when the reply failed, has no rows, or the count is not a number. */
  function CountResult(reply: Result<seq<string>>, atoi: string -> Result<int>): (r: Result<nat>)
    ensures r.Success? <==> reply.Success? && |reply.value| > 0 && atoi(reply.value[0]).Success?
    ensures reply.Failure? ==> r == Failure(reply.error)
    ensures reply == Success([]) ==> r == Failure(EmptyCountResponse)
    ensures reply.Success? && |reply.value| > 0 && atoi(reply.value[0]).Failure? ==>
              r == Failure(atoi(reply.value[0]).error)
    ensures r.Success? ==> r.value < UintModulus && (r.value - atoi(reply.value[0]).value) % UintModulus == 0
  {
    match reply
    case Failure(e) => Failure(e)
    case Success(rows) =>
      if |rows| == 0 then Failure(EmptyCountResponse)
      else
        match atoi(rows[0])
        case Failure(e) => Failure(e)
        case Success(i) => Success(ToUint(i))
  }

  /** A column name as reported by Fields: every space becomes an underscore. */
  function Underscored(record: seq<string>): (r: seq<string>)
    ensures |r| == |record|
    ensures forall i :: 0 <= i < |record| ==> |r[i]| == |record[i]| && ' ' !in r[i]
  {
    seq(|record|, i requires 0 <= i < |record| => ReplaceChar(record[i], ' ', '_'))
  }

  /** The reported names have no spaces, one per column and in column order;
      a name without spaces is reported as it is. */
  lemma UnderscoredFields(record: seq<string>)
    ensures |Underscored(record)| == |record|
    ensures forall i :: 0 <= i < |record| ==> ' ' !in Underscored(record)[i]
    ensures forall i :: 0 <= i < |record| && ' ' !in record[i] ==> Underscored(record)[i] == record[i]
  {
    forall i | 0 <= i < |record|
      ensures ' ' !in Underscored(record)[i]
      ensures ' ' !in record[i] ==> Underscored(record)[i] == record[i]
    {
      ReplaceCharRemovesAll(record[i], ' ', '_');
      if ' ' !in record[i] {
        ReplaceCharIdentity(record[i], ' ', '_');
      }
    }
  }

  /** Renames the columns of the CSV header row into a fresh slice, one by one. */
  method RenameFields(record: seq<string>) returns (fields: seq<string>)
    ensures fields == Underscored(record)
  {
    var a := new string[|record|];
    for i := 0 to |record|
      invariant forall j :: 0 <= j < i ==> a[j] == ReplaceChar(record[j], ' ', '_')
    {
      a[i] := ReplaceChar(record[i], ' ', '_');
    }
    fields := a[..];
  }

  const TruthHeader := "X-Soda2-Truth-Last-Modified"
  const LastModifiedHeader := "Last-Modified"

  /** Header.Get: the value of a header, "" when it is absent. */
  function Header(headers: map<string, string>, name: string): string
  {
    if name in headers then headers[name] else ""
  }

  /** The last-modified stamp of a reply: the SODA truth header, or else the
      standard Last-Modified header; an error when neither is set. */
  function LastModified(headers: map<string, string>): (r: Result<string>)
    ensures r.Success? ==> r.value != ""
    ensures r.Failure? <==> Header(headers, TruthHeader) == "" && Header(headers, LastModifiedHeader) == ""
    ensures r.Failure? ==> r.error == NoLastModified
    ensures Header(headers, TruthHeader) != "" ==> r == Success(Header(headers, TruthHeader))
    ensures Header(headers, TruthHeader) == "" && r.Success? ==> r.value == Header(headers, LastModifiedHeader)
  {
    var stamp := Header(headers, TruthHeader);
    var stamp' := if stamp == "" then Header(headers, LastModifiedHeader) else stamp;
    if stamp' == "" then Failure(NoLastModified) else Success(stamp')
  }

  class GetRequest {
    const appToken: string
    const endpoint: string        // the resource URL without the format suffix
    var format: string            // "json", "csv", ...; "" means json
    var filters: map<string, string>
    const query: SoSQL
    var metadata: Metadata

    /** NewGetRequest; `parsed` is the endpoint as url.Parse splits it, or None if it does not parse. */
    constructor (endpoint: string, appToken: string, parsed: Option<ParsedUrl>)
      ensures this.endpoint == endpoint && this.appToken == appToken
      ensures format == "" && filters == map[]
      ensures fresh(query) && query.Spec() == EmptyQuery
      ensures metadata == NewMetadata(parsed)
    {
      this.endpoint := endpoint;
      this.appToken := appToken;
      format := "";
      filters := map[];
      query := new SoSQL();
      metadata := NewMetadata(parsed);
    }

    /** The full URL of the request; an unset format becomes json and stays set. */
    method GetEndpoint() returns (url: string)
      modifies this`format
      ensures format == DefaultFormat(old(format))
      ensures url == endpoint + "." + format
    {
      if format == "" {
        format := "json";
      }
      url := endpoint + "." + format;
    }

    /** The request's parameters: the filters, then the query's parameters over them. */
    method URLValues() returns (uv: Values)
      ensures uv == RequestValues(filters, query.Spec())
    {
      var fv := FilterValues(filters);
      var qv := query.URLValues();
      uv := map[];
      var todo := fv.Keys;
      while todo != {}
        invariant todo <= fv.Keys
        invariant uv.Keys == fv.Keys - todo
        invariant forall k :: k in uv ==> uv[k] == fv[k]
        decreases todo
      {
        var k :| k in todo;
        uv := uv[k := fv[k]];
        todo := todo - {k};
      }
      todo := qv.Keys;
      while todo != {}
        invariant todo <= qv.Keys
        invariant uv.Keys == fv.Keys + (qv.Keys - todo)
        invariant forall k :: k in uv && k in qv.Keys - todo ==> uv[k] == qv[k]
        invariant forall k :: k in uv && k !in qv.Keys - todo ==> uv[k] == fv[k]
        decreases todo
      {
        var k :| k in todo;
        uv := uv[k := qv[k]];
        todo := todo - {k};
      }
      assert uv == fv + qv;
    }

    /** Get: refuses an offset without an order before anything is sent;
        otherwise the request for the current format, filters and query. */
    method Get() returns (r: Result<Request>)
      modifies this`format
      ensures NeedsOrder(query.Spec()) ==> r == Failure(UnorderedOffset) && format == old(format)
      ensures !NeedsOrder(query.Spec()) ==>
                && format == DefaultFormat(old(format))
                && r == Success(Request(endpoint + "." + format, RequestValues(filters, query.Spec()), appToken))
    {
      if query.offset > 0 && |query.order| == 0 {
        return Failure(UnorderedOffset);
      }
      var params := URLValues();
      var url := GetEndpoint();
      r := Success(Request(url, params, appToken));
    }

    /** Count: asks for count(*) without an order in json, and restores the
        format, the selected columns and the order whatever the outcome.
        `reply` is the decoded reply and `atoi` reads its count. */
    method Count(reply: Result<seq<string>>, atoi: string -> Result<int>) returns (n: Result<nat>, sent: Option<Request>)
      modifies this, query
      ensures unchanged(this) && unchanged(query)
      ensures sent == if query.offset > 0 then None
                      else Some(Request(endpoint + ".json", RequestValues(filters, CountQuery(query.Spec())), appToken))
      ensures n == if sent.None? then Failure(UnorderedOffset) else CountResult(reply, atoi)
    {
      var oldFormat, oldOrder, oldSelect := format, query.order, query.select;

      format := "json";
      query.select := ["count(*)"];
      query.ClearOrder();
      assert query.Spec() == CountQuery(old(query.Spec()));

      var req := Get();
      if req.Failure? {
        n, sent := Failure(req.error), None;
      } else {
        assert endpoint + "." + "json" == endpoint + ".json";
        n, sent := CountResult(reply, atoi), Some(req.value);
      }

      // the deferred restore, on every path
      format, query.order, query.select := oldFormat, oldOrder, oldSelect;
    }

    /** Fields: asks for the csv header row of all columns without limit or
        order, and restores the format, columns, order and limit whatever the
        outcome. `reply` is the first CSV record read ([] at end of input). */
    method Fields(reply: Result<seq<string>>) returns (fields: Result<seq<string>>, sent: Option<Request>)
      modifies this, query
      ensures unchanged(this) && unchanged(query)
      ensures sent == if query.offset > 0 then None
                      else Some(Request(endpoint + ".csv", RequestValues(filters, BareQuery(query.Spec())), appToken))
      ensures sent.None? ==> fields == Failure(UnorderedOffset)
      ensures sent.Some? ==> fields == if reply.Failure? then Failure(reply.error) else Success(Underscored(reply.value))
    {
      var oldFormat, oldOrder, oldLimit, oldSelect := format, query.order, query.limit, query.select;

      format := "csv";
      query.select := [];
      query.limit := 0;
      query.ClearOrder();
      assert query.Spec() == BareQuery(old(query.Spec()));

      var req := Get();
      if req.Failure? {
        fields, sent := Failure(req.error), None;
      } else {
        assert endpoint + "." + "csv" == endpoint + ".csv";
        sent := Some(req.value);
        match reply
        case Failure(e) =>
          fields := Failure(e);
        case Success(record) =>
          var renamed := RenameFields(record);
          fields := Success(renamed);
      }

      // the deferred restore, on every path
      format, query.select, query.order, query.limit := oldFormat, oldSelect, oldOrder, oldLimit;
    }

    /** Modified: asks for the dataset in json without columns, limit or
        order, and reads the last-modified stamp from the reply's headers;
        the format, columns, order and limit are restored whatever the outcome.
        `reply` is the header map of the reply. */
    method Modified(reply: Result<map<string, string>>) returns (stamp: Result<string>, sent: Option<Request>)
      modifies this, query
      ensures unchanged(this) && unchanged(query)
      ensures sent == if query.offset > 0 then None
                      else Some(Request(endpoint + ".json", RequestValues(filters, BareQuery(query.Spec())), appToken))
      ensures sent.None? ==> stamp == Failure(UnorderedOffset)
      ensures sent.Some? ==> stamp == if reply.Failure? then Failure(reply.error) else LastModified(reply.value)
    {
      var oldFormat, oldOrder, oldLimit, oldSelect := format, query.order, query.limit, query.select;

      format := "json";
      query.select := [];
      query.limit := 0;
      query.ClearOrder();
      assert query.Spec() == BareQuery(old(query.Spec()));

      var req := Get();
      if req.Failure? {
        stamp, sent := Failure(req.error), None;
      } else {
        assert endpoint + "." + "json" == endpoint + ".json";
        sent := Some(req.value);
        match reply
        case Failure(e) =>
          stamp := Failure(e);
        case Success(headers) =>
          stamp := LastModified(headers);
      }

      // the deferred restore, on every path
      format, query.select, query.order, query.limit := oldFormat, oldSelect, oldOrder, oldLimit;
    }
  }
}
