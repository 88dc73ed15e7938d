/** The SoSQL query of a request, its serialisation into URL parameters,
    the equality filters, and the merge of the two (soda.go). */
module Queries {
  import opened Text
  import opened Outcomes

  /** Sort direction: Go's Direction is a bool, false ascending, true descending. */
  const DirAsc: bool := false
  const DirDesc: bool := true

  /** One sort key: a column and whether it sorts descending. */
  datatype OrderKey = OrderKey(column: string, desc: bool)

  /** The value of a SoSQL query; zero values mean "not set". */
  datatype QuerySpec = QuerySpec(
    select: seq<string>,    // columns to return; empty means all
    where: string,          // filter expression
    order: seq<OrderKey>,   // sort keys, first added is the primary key
    group: string,          // group-by column
    limit: nat,             // maximum number of rows; 0 means the server default
    offset: nat,            // rows to skip; 0 means none
    q: string)              // full-text search

  const EmptyQuery := QuerySpec([], "", [], "", 0, 0, "")

  /** The parameter names a query can emit. */
  const Reserved: set<string> := {"$select", "$where", "$order", "$q", "$group", "$limit", "$offset"}

  /** A query that skips rows without fixing an order, which the server cannot page safely. */
  predicate NeedsOrder(q: QuerySpec)
  {
    q.offset > 0 && |q.order| == 0
  }

  function OrderTerm(k: OrderKey): string
  {
    k.column + (if k.desc then " DESC" else " ASC")
  }

  /** The sort keys written out one by one, in insertion order. */
  function OrderTerms(order: seq<OrderKey>): (terms: seq<string>)
    ensures |terms| == |order|
    ensures forall i :: 0 <= i < |order| ==> terms[i] == OrderTerm(order[i])
  {
    if |order| == 0 then []
    else OrderTerms(order[..|order| - 1]) + [OrderTerm(order[|order| - 1])]
  }

  /** The value of the $order parameter. */
  function OrderValue(order: seq<OrderKey>): (r: string)
    ensures r == "" <==> order == []
  {
    Join(OrderTerms(order), ",")
  }

  /** SoSQL.URLValues: one single-valued parameter per field that is set. */
  function QueryValues(q: QuerySpec): (r: Values)
    ensures r.Keys <= Reserved
    ensures forall k :: k in r ==> |r[k]| == 1
  {
    var v0: Values := map[];
    var v1 := if |q.select| > 0 then v0["$select" := [Join(q.select, ",")]] else v0;
    var v2 := if |q.where| > 0 then v1["$where" := [q.where]] else v1;
    var v3 := if |q.order| > 0 then v2["$order" := [OrderValue(q.order)]] else v2;
    var v4 := if |q.q| > 0 then v3["$q" := [q.q]] else v3;
    var v5 := if |q.group| > 0 then v4["$group" := [q.group]] else v4;
    var v6 := if q.limit > 0 then v5["$limit" := [FormatDecimal(q.limit)]] else v5;
    if q.offset > 0 then v6["$offset" := [FormatDecimal(q.offset)]] else v6
  }

  /** Every parameter is present exactly when its field differs from the
      zero value, and then carries the field's text. */
  lemma QueryValuesFields(q: QuerySpec)
    ensures var r := QueryValues(q);
      && ("$select" in r <==> |q.select| > 0)
      && ("$where" in r <==> q.where != "")
      && ("$order" in r <==> |q.order| > 0)
      && ("$q" in r <==> q.q != "")
      && ("$group" in r <==> q.group != "")
      && ("$limit" in r <==> q.limit > 0)
      && ("$offset" in r <==> q.offset > 0)
      && ("$select" in r ==> r["$select"] == [Join(q.select, ",")])
      && ("$where" in r ==> r["$where"] == [q.where])
      && ("$order" in r ==> r["$order"] == [OrderValue(q.order)])
      && ("$q" in r ==> r["$q"] == [q.q])
      && ("$group" in r ==> r["$group"] == [q.group])
      && ("$limit" in r ==> r["$limit"] == [FormatDecimal(q.limit)])
      && ("$offset" in r ==> r["$offset"] == [FormatDecimal(q.offset)])
  {
  }

  /** A query serialises to no parameters at all exactly when every field has its zero value. */
  lemma EmptyQueryValues(q: QuerySpec)
    ensures QueryValues(q) == map[] <==> q == EmptyQuery
  {
    QueryValuesFields(q);
    if QueryValues(q) == map[] {
      assert "$select" !in QueryValues(q);
      assert "$where" !in QueryValues(q) && "$order" !in QueryValues(q);
      assert "$q" !in QueryValues(q) && "$group" !in QueryValues(q);
      assert "$limit" !in QueryValues(q) && "$offset" !in QueryValues(q);
    }
  }

  /** Get's guard refuses exactly the queries whose parameters would carry
      $offset without $order. */
  lemma OffsetWithoutOrder(q: QuerySpec)
    ensures NeedsOrder(q) <==> "$offset" in QueryValues(q) && "$order" !in QueryValues(q)
  {
    QueryValuesFields(q);
  }

  /** Adding a sort key appends its term at the end of $order, after the earlier ones. */
  lemma AddOrderAppends(order: seq<OrderKey>, k: OrderKey)
    ensures OrderValue(order + [k]) == if order == [] then OrderTerm(k) else OrderValue(order) + "," + OrderTerm(k)
  {
    assert (order + [k])[..|order|] == order;
    assert OrderTerms(order + [k]) == OrderTerms(order) + [OrderTerm(k)];
    JoinAppend(OrderTerms(order), OrderTerm(k), ",");
  }

  /** Reads one sort term back: a trailing " DESC" or " ASC" gives the direction. */
  function ParseOrderTerm(t: string): OrderKey
  {
    if HasSuffix(t, " DESC") then OrderKey(t[..|t| - 5], true)
    else if HasSuffix(t, " ASC") then OrderKey(t[..|t| - 4], false)
    else OrderKey(t, false)
  }

  lemma OrderTermRoundTrip(k: OrderKey)
    ensures ParseOrderTerm(OrderTerm(k)) == k
  {
    var t := OrderTerm(k);
    if k.desc {
      assert t[..|t| - 5] == k.column;
    } else {
      assert t[|t| - 4..] == " ASC";
      assert t[|t| - 3] == 'A';
      assert t[..|t| - 4] == k.column;
    }
  }

  function ParseOrderTerms(terms: seq<string>): (keys: seq<OrderKey>)
  {
    seq(|terms|, i requires 0 <= i < |terms| => ParseOrderTerm(terms[i]))
  }

  /** Reads the value of $order back into sort keys. */
  function ParseOrder(value: string): seq<OrderKey>
  {
    ParseOrderTerms(Split(value, ','))
  }

  /** Columns whose names have no comma, so that comma-joined lists can be read back. */
  predicate CommaFree(q: QuerySpec)
  {
    && (forall i :: 0 <= i < |q.select| ==> ',' !in q.select[i])
    && (forall i :: 0 <= i < |q.order| ==> ',' !in q.order[i].column)
  }

  /** The $order value lists the sort keys in insertion order with their directions:
      reading it back gives the same keys. */
  lemma {:induction false} OrderRoundTrip(order: seq<OrderKey>)
    requires |order| > 0
    requires forall i :: 0 <= i < |order| ==> ',' !in order[i].column
    ensures ParseOrder(OrderValue(order)) == order
  {
    var terms := OrderTerms(order);
    forall i | 0 <= i < |terms|
      ensures ',' !in terms[i]
    {
      assert terms[i] == order[i].column + (if order[i].desc then " DESC" else " ASC");
    }
    SplitJoin(terms, ',');
    forall i | 0 <= i < |order|
      ensures ParseOrderTerms(terms)[i] == order[i]
    {
      OrderTermRoundTrip(order[i]);
    }
  }

  /** The first value of a parameter, if it has one. */
  function FirstValue(v: Values, key: string): Option<string>
  {
    if key in v && |v[key]| > 0 then Some(v[key][0]) else None
  }

  function ParseCount(s: Option<string>): nat
  {
    if s.Some? && forall i :: 0 <= i < |s.value| ==> IsDigit(s.value[i]) then ParseDecimal(s.value) else 0
  }

  function TextOf(s: Option<string>): string
  {
    if s.Some? then s.value else ""
  }

  /** Reads a query back from its parameters (the reference inverse of QueryValues). */
  function ParseQuery(v: Values): QuerySpec
  {
    var select := FirstValue(v, "$select");
    var order := FirstValue(v, "$order");
    QuerySpec(
      if select.Some? then Split(select.value, ',') else [],
      TextOf(FirstValue(v, "$where")),
      if order.Some? then ParseOrder(order.value) else [],
      TextOf(FirstValue(v, "$group")),
      ParseCount(FirstValue(v, "$limit")),
      ParseCount(FirstValue(v, "$offset")),
      TextOf(FirstValue(v, "$q")))
  }

  /** Round trip: the parameters of a query determine the query, so the
      serialisation loses nothing (given comma-free column names). */
  lemma QueryRoundTrip(q: QuerySpec)
    requires CommaFree(q)
    ensures ParseQuery(QueryValues(q)) == q
  {
    QueryValuesFields(q);
    if |q.select| > 0 {
      SplitJoin(q.select, ',');
    }
    if |q.order| > 0 {
      OrderRoundTrip(q.order);
    }
    DecimalRoundTrip(q.limit);
    DecimalRoundTrip(q.offset);
  }

  /** SimpleFilters.URLValues: one single-valued parameter per filter column. */
  function FilterValues(f: map<string, string>): (r: Values)
    ensures r.Keys == f.Keys
    ensures forall k :: k in r ==> r[k] == [f[k]]
  {
    map k | k in f :: [f[k]]
  }

  /** GetRequest.URLValues: filters first, then the query's parameters,
      which replace a filter of the same name. */
  function RequestValues(f: map<string, string>, q: QuerySpec): (r: Values)
    ensures r.Keys == f.Keys + QueryValues(q).Keys
    ensures forall k :: k in QueryValues(q) ==> r[k] == QueryValues(q)[k]
    ensures forall k :: k in f && k !in QueryValues(q) ==> r[k] == [f[k]]
  {
    FilterValues(f) + QueryValues(q)
  }

  /** With filters on ordinary columns, a request's parameters give back both
      the filters and the query. */
  lemma RequestRoundTrip(f: map<string, string>, q: QuerySpec)
    requires CommaFree(q)
    requires forall k :: k in f ==> k !in Reserved
    ensures forall k :: k in f ==> FirstValue(RequestValues(f, q), k) == Some(f[k])
    ensures ParseQuery(RequestValues(f, q)) == q
  {
    var r := RequestValues(f, q);
    var qv := QueryValues(q);
    forall key | key in Reserved
      ensures FirstValue(r, key) == FirstValue(qv, key)
    {
    }
    assert ParseQuery(r) == ParseQuery(qv);
    QueryRoundTrip(q);
  }

  /** The serialisation asserted by the source's test of a full query. */
  lemma SerialisedExample()
    ensures QueryValues(QuerySpec(
              ["farm_name", "category", "item", "website"], "item like '%ADISH%'",
              [OrderKey("category", DirDesc), OrderKey("farm_name", DirAsc)], "", 10, 20, ""))
            == map["$select" := ["farm_name,category,item,website"],
                   "$where" := ["item like '%ADISH%'"],
                   "$order" := ["category DESC,farm_name ASC"],
                   "$limit" := ["10"],
                   "$offset" := ["20"]]
  {
    var order := [OrderKey("category", DirDesc), OrderKey("farm_name", DirAsc)];
    ExampleOrderValue(order);
    ExampleSelectValue();
    assert FormatDecimal(10) == "10" by { assert FormatDecimal(1) == "1"; }
    assert FormatDecimal(20) == "20" by { assert FormatDecimal(2) == "2"; }
  }

  lemma ExampleOrderValue(order: seq<OrderKey>)
    requires order == [OrderKey("category", DirDesc), OrderKey("farm_name", DirAsc)]
    ensures OrderValue(order) == "category DESC,farm_name ASC"
  {
    assert OrderTerm(order[0]) == "category DESC";
    assert OrderTerm(order[1]) == "farm_name ASC";
    assert OrderTerms(order[..1]) == ["category DESC"] by {
      assert order[..1][..0] == [];
    }
    assert OrderTerms(order) == ["category DESC", "farm_name ASC"] by {
      assert order[..|order| - 1] == order[..1];
    }
    assert ["category DESC", "farm_name ASC"][1..] == ["farm_name ASC"];
  }

  lemma ExampleSelectValue()
    ensures Join(["farm_name", "category", "item", "website"], ",") == "farm_name,category,item,website"
  {
    assert ["item", "website"][1..] == ["website"];
    assert ["category", "item", "website"][1..] == ["item", "website"];
    assert ["farm_name", "category", "item", "website"][1..] == ["category", "item", "website"];
  }

  /** The query of a request, updated in place by its methods. */
  class SoSQL {
    var select: seq<string>
    var where: string
    var order: seq<OrderKey>
    var group: string
    var limit: nat
    var offset: nat
    var q: string

    constructor ()
      ensures Spec() == EmptyQuery
    {
      select, where, order, group := [], "", [], "";
      limit, offset, q := 0, 0, "";
    }

    /** The query's current value. */
    function Spec(): QuerySpec
      reads this
    {
      QuerySpec(select, where, order, group, limit, offset, q)
    }

    /** Appends one sort key; earlier keys keep their place. */
    method AddOrder(column: string, dir: bool)
      modifies this`order
      ensures order == old(order) + [OrderKey(column, dir)]
    {
      order := order + [OrderKey(column, dir)];
    }

    /** Removes every sort key. */
    method ClearOrder()
      modifies this`order
      ensures order == []
    {
      order := [];
    }

    /** The $order value, built term by term as the sort keys were added. */
    method OrderString() returns (value: string)
      ensures value == OrderValue(order)
    {
      var terms: seq<string> := [];
      var i := 0;
      while i < |order|
        invariant 0 <= i <= |order|
        invariant terms == OrderTerms(order[..i])
      {
        if order[i].desc {
          terms := terms + [order[i].column + " DESC"];
        } else {
          terms := terms + [order[i].column + " ASC"];
        }
        assert order[..i + 1][..i] == order[..i];
        i := i + 1;
      }
      assert order[..i] == order;
      value := Join(terms, ",");
    }

    /** Builds the query's parameters field by field, on the object's current
        fields, as the source does; `QueryValues` is the same serialisation
        stated on a query value, which the lemmas above and the request
        functions use, and this method is proved to compute it. */
    method URLValues() returns (uv: Values)
      ensures uv == QueryValues(Spec())
    {
      uv := map[];
      if |select| > 0 {
        uv := uv["$select" := [Join(select, ",")]];
      }
      if |where| > 0 {
        uv := uv["$where" := [where]];
      }
      if |order| > 0 {
        var value := OrderString();
        uv := uv["$order" := [value]];
      }
      if |q| > 0 {
        uv := uv["$q" := [q]];
      }
      if |group| > 0 {
        uv := uv["$group" := [group]];
      }
      if limit > 0 {
        uv := uv["$limit" := [FormatDecimal(limit)]];
      }
      if offset > 0 {
        uv := uv["$offset" := [FormatDecimal(offset)]];
      }
    }
  }
}
