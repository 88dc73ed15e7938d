/** Paged fetching of a whole result set (OffsetGetRequest in soda.go):
    a session knows the total number of records and hands out the next
    window [offset, offset + n) of the shared request, one call at a time,
    until every record has been handed out. */
module Paging {
  import opened Outcomes
  import opened Queries
  import opened Requests

  /** The records [start, start + len) fetched by one call to Next. */
  datatype Window = Window(start: nat, len: nat)
  {
    function End(): nat
    {
      start + len
    }
  }

  /** Record `x` is in window `w`. */
  predicate InWindow(w: Window, x: nat)
  {
    w.start <= x < w.End()
  }

  /** The window Next hands out at `offset`: `number` records, or all that
      remain when fewer are left. */
  function NextWindow(offset: nat, count: nat, number: nat): (w: Window)
    requires offset < count
    ensures w.start == offset && w.End() <= count
    ensures w.len <= number
    ensures w.len == number || w.End() == count
  {
    Window(offset, if number > count - offset then count - offset else number)
  }

  /** The windows follow one another without gap or overlap, from `from` up to `upto`. */
  predicate Contiguous(ws: seq<Window>, from: nat, upto: nat)
    decreases |ws|
  {
    if ws == [] then from == upto
    else ws[0].start == from && Contiguous(ws[1..], ws[0].End(), upto)
  }

  /** Record `x` is in one of the windows. */
  predicate Covered(ws: seq<Window>, x: nat)
    decreases |ws|
  {
    ws != [] && (InWindow(ws[0], x) || Covered(ws[1..], x))
  }

  /** Handing out one more window where the last one ended keeps the windows contiguous. */
  lemma {:induction false} ContiguousExtend(ws: seq<Window>, from: nat, upto: nat, w: Window)
    requires Contiguous(ws, from, upto)
    requires w.start == upto
    ensures Contiguous(ws + [w], from, w.End())
    decreases |ws|
  {
    if ws == [] {
      assert [w][1..] == [];
    } else {
      assert (ws + [w])[1..] == ws[1..] + [w];
      ContiguousExtend(ws[1..], ws[0].End(), upto, w);
    }
  }

  /** Contiguous windows cover exactly the records from `from` up to `upto`. */
  lemma {:induction false} ContiguousCovers(ws: seq<Window>, from: nat, upto: nat)
    requires Contiguous(ws, from, upto)
    ensures from <= upto
    ensures forall x: nat :: Covered(ws, x) <==> from <= x < upto
    decreases |ws|
  {
    if ws != [] {
      ContiguousCovers(ws[1..], ws[0].End(), upto);
    }
  }

  /** A later window starts where or after an earlier one ends. */
  lemma {:induction false} ContiguousOrdered(ws: seq<Window>, from: nat, upto: nat)
    requires Contiguous(ws, from, upto)
    ensures forall i :: 0 <= i < |ws| ==> from <= ws[i].start
    ensures forall i, j :: 0 <= i < j < |ws| ==> ws[i].End() <= ws[j].start
    decreases |ws|
  {
    if ws != [] {
      ContiguousOrdered(ws[1..], ws[0].End(), upto);
      forall i, j | 0 <= i < j < |ws|
        ensures ws[i].End() <= ws[j].start
      {
        if i > 0 {
          assert ws[i] == ws[1..][i - 1] && ws[j] == ws[1..][j - 1];
        } else {
          assert ws[j] == ws[1..][j - 1];
        }
      }
      forall i | 0 <= i < |ws|
        ensures from <= ws[i].start
      {
        if i > 0 {
          assert ws[i] == ws[1..][i - 1];
        }
      }
    }
  }

  /** No record is handed out twice. */
  lemma WindowsDisjoint(ws: seq<Window>, from: nat, upto: nat)
    requires Contiguous(ws, from, upto)
    ensures forall i, j, x: nat :: 0 <= i < j < |ws| && InWindow(ws[i], x) ==> !InWindow(ws[j], x)
  {
    ContiguousOrdered(ws, from, upto);
  }

  /** The windows a session hands out when every call asks for `number`
      records, from `offset` until the end. */
  function Schedule(offset: nat, count: nat, number: nat): seq<Window>
    requires number > 0
    decreases count - offset
  {
    if offset >= count then []
    else
      var w := NextWindow(offset, count, number);
      [w] + Schedule(w.End(), count, number)
  }

  /** Such a session hands out the remaining records exactly once. */
  lemma {:induction false} ScheduleCovers(offset: nat, count: nat, number: nat)
    requires number > 0 && offset <= count
    ensures Contiguous(Schedule(offset, count, number), offset, count)
    decreases count - offset
  {
    if offset < count {
      var w := NextWindow(offset, count, number);
      ScheduleCovers(w.End(), count, number);
      assert ([w] + Schedule(w.End(), count, number))[1..] == Schedule(w.End(), count, number);
    }
  }

  /** It takes the fewest calls of `number` records that reach the count:
      ceil(remaining / number). */
  lemma {:induction false} ScheduleLength(offset: nat, count: nat, number: nat)
    requires number > 0 && offset <= count
    ensures var calls := |Schedule(offset, count, number)|;
      calls * number >= count - offset && (calls == 0 || (calls - 1) * number < count - offset)
    decreases count - offset
  {
    if offset < count {
      var w := NextWindow(offset, count, number);
      ScheduleLength(w.End(), count, number);
      var calls := |Schedule(w.End(), count, number)|;
      assert (calls + 1) * number == calls * number + number;
    }
  }

  /** Next's clamp as written, in 64-bit unsigned arithmetic: the test
      `offset + number > count` is made on the wrapped sum, and the new
      offset wraps too. Returns the window and the new offset. */
  function ClampAsWritten(offset: nat, count: nat, number: nat): (r: (Window, nat))
    requires offset < count < UintModulus && number < UintModulus
    ensures r.0.start == offset
    ensures r.0.len == number || r.0.len == count - offset
    ensures r.1 == WrappingAdd(offset, r.0.len) && r.1 <= count
  {
    var n := if WrappingAdd(offset, number) > count then count - offset else number;
    (Window(offset, n), WrappingAdd(offset, n))
  }

  /** The sum of two 64-bit unsigned integers, modulo 2^64. */
  function WrappingAdd(a: nat, b: nat): (s: nat)
    requires a < UintModulus && b < UintModulus
    ensures s < UintModulus
    ensures s == a + b || s == a + b - UintModulus
  {
    if a + b >= UintModulus then a + b - UintModulus else a + b
  }

  /** A huge request wraps the sum: the window runs far past the count and
      the offset moves back, so records 2 to 4 would be handed out again. */
  lemma ClampAsWrittenOverflows()
    ensures var (w, next) := ClampAsWritten(5, 10, UintModulus - 3);
      && w.End() > 10
      && next == 2
  {
  }

  /** After a session has handed out records 0 to 4, that huge request moves
      the offset back into records already handed out. */
  lemma ClampAsWrittenRepeats(ws: seq<Window>)
    requires Contiguous(ws, 0, 5)
    ensures var (_, next) := ClampAsWritten(5, 10, UintModulus - 3);
      && next < 5
      && forall x: nat :: next <= x < 5 ==> Covered(ws, x)
  {
    ContiguousCovers(ws, 0, 5);
  }

  /** Without wrap-around the written clamp and NextWindow agree. */
  lemma ClampAsWrittenWithoutOverflow(offset: nat, count: nat, number: nat)
    requires offset < count < UintModulus && number < UintModulus
    requires offset + number < UintModulus
    ensures ClampAsWritten(offset, count, number) == (NextWindow(offset, count, number), NextWindow(offset, count, number).End())
  {
  }

  /** A paging session over a request: the total `count` taken once, the
      next `offset`, and the mutex that makes each Next one atomic step. */
  class OffsetGetRequest {
    const gr: GetRequest
    var offset: nat
    const count: nat
    var locked: bool
    /** The windows handed out so far, in order. */
    ghost var windows: seq<Window>

    /** The history invariant: the windows handed out so far run from 0 to the offset. */
    ghost predicate Inv()
      reads this
    {
      && offset <= count
      && Contiguous(windows, 0, offset)
    }

    /** Ready for a call of Next: the invariant holds and the mutex is free. */
    ghost predicate Valid()
      reads this
    {
      Inv() && !locked
    }

    constructor (gr: GetRequest, count: nat)
      ensures Valid()
      ensures this.gr == gr && this.count == count
      ensures offset == 0 && windows == []
    {
      this.gr := gr;
      this.count := count;
      offset := 0;
      locked := false;
      windows := [];
    }

    /** IsDone: every record has been handed out, and the windows handed out
        cover the records [0, count) exactly once. */
    function IsDone(): (done: bool)
      reads this
      requires Inv()
      ensures done <==> offset == count
      ensures done ==> forall x: nat :: Covered(windows, x) <==> x < count
    {
      ContiguousCovers(windows, 0, offset);
      offset >= count
    }

    /** Count: the total taken when the session began, never below the offset. */
    function Count(): (n: nat)
      reads this
      requires Inv()
      ensures n == count && offset <= n
    {
      count
    }

    /** Next: Done once every record is handed out; an error, with nothing
        changed, when the request has no order; otherwise the next window is
        written into the query's offset and limit, the offset moves past it,
        and the request for it is returned. The mutex is released on every path. */
    method Next(number: nat) returns (r: Result<Request>)
      requires Valid()
      modifies this, gr, gr.query
      ensures Valid()
      ensures old(offset) >= count ==> r == Failure(Done) && unchanged(this, gr, gr.query)
      ensures old(offset) < count && |old(gr.query.order)| == 0 ==>
                r == Failure(UnorderedOffset) && unchanged(this, gr, gr.query)
      ensures old(offset) < count && |old(gr.query.order)| > 0 ==>
                var w := NextWindow(old(offset), count, number);
                && windows == old(windows) + [w]
                && offset == w.End()
                && gr.query.Spec() == old(gr.query.Spec()).(offset := w.start, limit := w.len)
                && gr.format == DefaultFormat(old(gr.format))
                && gr.filters == old(gr.filters) && gr.metadata == old(gr.metadata)
                && r == Success(Request(gr.endpoint + "." + gr.format, RequestValues(gr.filters, gr.query.Spec()), gr.appToken))
    {
      locked := true;
      if offset >= count {
        locked := false;
        return Failure(Done);
      }
      if |gr.query.order| == 0 {
        locked := false;
        return Failure(UnorderedOffset);
      }
      var n := number;
      if n > count - offset {
        n := count - offset;
      }
      gr.query.offset := offset;
      gr.query.limit := n;
      var params := gr.URLValues();
      ContiguousExtend(windows, 0, offset, Window(offset, n));
      windows := windows + [Window(offset, n)];
      offset := offset + n;
      locked := false;
      var url := gr.GetEndpoint();
      r := Success(Request(url, params, gr.appToken));
    }

    /** Next as the source writes it: the clamp is tested on the wrapped
        64-bit sum, and the path that finds no order returns with the mutex
        still held, which leaves the session unusable for every later call.
        The history is not kept: the offset can move back. */
    method NextAsWritten(number: nat) returns (r: Result<Request>)
      requires offset <= count < UintModulus && number < UintModulus && !locked
      modifies this, gr, gr.query
      ensures windows == old(windows)
      ensures old(offset) >= count ==> r == Failure(Done) && unchanged(this, gr, gr.query)
      ensures old(offset) < count && |old(gr.query.order)| == 0 ==>
                && r == Failure(UnorderedOffset)
                && locked && !Valid()
                && offset == old(offset)
                && unchanged(gr, gr.query)
      ensures old(offset) < count && |old(gr.query.order)| > 0 ==>
                var (w, next) := ClampAsWritten(old(offset), count, number);
                && !locked
                && offset == next <= count
                && gr.query.Spec() == old(gr.query.Spec()).(offset := w.start, limit := w.len)
                && gr.format == DefaultFormat(old(gr.format))
                && gr.filters == old(gr.filters) && gr.metadata == old(gr.metadata)
                && r == Success(Request(gr.endpoint + "." + gr.format, RequestValues(gr.filters, gr.query.Spec()), gr.appToken))
    {
      locked := true;
      if offset >= count {
        locked := false;
        return Failure(Done);
      }
      if |gr.query.order| == 0 {
        return Failure(UnorderedOffset);
      }
      var n := number;
      if WrappingAdd(offset, n) > count {
        n := count - offset;
      }
      gr.query.offset := offset;
      gr.query.limit := n;
      var params := gr.URLValues();
      offset := WrappingAdd(offset, n);
      locked := false;
      var url := gr.GetEndpoint();
      r := Success(Request(url, params, gr.appToken));
    }
  }

  /** NewOffsetGetRequest: counts the records of the request once and starts
      a session at offset 0; the count's error otherwise. */
  method NewOffsetGetRequest(gr: GetRequest, reply: Result<seq<string>>, atoi: string -> Result<int>)
    returns (r: Result<OffsetGetRequest>)
    modifies gr, gr.query
    ensures unchanged(gr, gr.query)
    ensures r.Success? <==> gr.query.offset == 0 && CountResult(reply, atoi).Success?
    ensures r.Failure? && gr.query.offset > 0 ==> r.error == UnorderedOffset
    ensures r.Failure? && gr.query.offset == 0 ==> r == Failure(CountResult(reply, atoi).error)
    ensures r.Success? ==>
              && fresh(r.value) && r.value.Valid()
              && r.value.gr == gr && r.value.count == CountResult(reply, atoi).value
              && r.value.offset == 0 && r.value.windows == []
  {
    var count, _ := gr.Count(reply, atoi);
    match count
    case Failure(e) =>
      r := Failure(e);
    case Success(n) =>
      var o := new OffsetGetRequest(gr, n);
      r := Success(o);
  }
}
