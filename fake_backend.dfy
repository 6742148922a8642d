/** The fake OpenCensus backend of the factory's tests: a tracer that records
    the last span name and explicit parent it was handed, and a span builder
    whose configuration calls do nothing. */
module FakeBackend {
  import opened Wrappers
  import opened Spans

  /** An OpenCensus sampler, opaque here: the fake builder ignores it. */
  datatype Sampler = Sampler

  /** A serialized remote parent, opaque here: the fake tracer ignores it. */
  datatype SpanContext = SpanContext

  /** What the fake tracer has recorded (`None` is Java's `null`). */
  datatype Recorded = Recorded(lastSpanName: Option<string>, lastParentSpan: Option<Span>)

  /** A fresh fake tracer has recorded nothing. */
  const Initial := Recorded(None, None)

  /** One call to the tracer's span-builder operations. */
  datatype BuilderRequest =
    | WithExplicitParent(name: string, parent: Option<Span>)
    | WithRemoteParent(name: string, remoteParent: Option<SpanContext>)

  /** The effect of one request on the record: both variants overwrite the
      name; only the explicit-parent variant overwrites the parent. */
  function Record(r: Recorded, req: BuilderRequest): (r': Recorded)
    ensures r'.lastSpanName == Some(req.name)
    ensures req.WithExplicitParent? ==> r'.lastParentSpan == req.parent
    ensures req.WithRemoteParent? ==> r'.lastParentSpan == r.lastParentSpan
  {
    match req
    case WithExplicitParent(name, parent) => Recorded(Some(name), parent)
    case WithRemoteParent(name, _) => r.(lastSpanName := Some(name))
  }

  /** The record after the requests `reqs`, issued in order, starting from `r`. */
  function Replay(r: Recorded, reqs: seq<BuilderRequest>): Recorded
    decreases |reqs|
  {
    if reqs == [] then r else Replay(Record(r, reqs[0]), reqs[1..])
  }

  /** Reference definition: the parent of the last explicit-parent request in
      `reqs`, or `fallback` when there is none. */
  function LastExplicitParent(reqs: seq<BuilderRequest>, fallback: Option<Span>): Option<Span>
    decreases |reqs|
  {
    if reqs == [] then fallback
    else if reqs[|reqs| - 1].WithExplicitParent? then reqs[|reqs| - 1].parent
    else LastExplicitParent(reqs[..|reqs| - 1], fallback)
  }

  /** Whatever was requested before, the recorded name is that of the last request. */
  lemma {:induction false} ReplayLastNameWins(r: Recorded, reqs: seq<BuilderRequest>)
    requires reqs != []
    ensures Replay(r, reqs).lastSpanName == Some(reqs[|reqs| - 1].name)
    decreases |reqs|
  {
    if |reqs| > 1 {
      ReplayLastNameWins(Record(r, reqs[0]), reqs[1..]);
    }
  }

  /** An explicit-parent request in front of `rest` only changes the fallback. */
  lemma {:induction false} LastExplicitParentCons(req: BuilderRequest, rest: seq<BuilderRequest>, fallback: Option<Span>)
    ensures LastExplicitParent([req] + rest, fallback)
            == LastExplicitParent(rest, Record(Recorded(None, fallback), req).lastParentSpan)
    decreases |rest|
  {
    if rest != [] {
      var reqs := [req] + rest;
      assert reqs[..|reqs| - 1] == [req] + rest[..|rest| - 1];
      LastExplicitParentCons(req, rest[..|rest| - 1], fallback);
    }
  }

  /** The recorded parent is that of the last explicit-parent request; remote
      -parent requests leave it alone, and with none at all it is unchanged. */
  lemma {:induction false} ReplayLastParentWins(r: Recorded, reqs: seq<BuilderRequest>)
    ensures Replay(r, reqs).lastParentSpan == LastExplicitParent(reqs, r.lastParentSpan)
    decreases |reqs|
  {
    if reqs != [] {
      ReplayLastParentWins(Record(r, reqs[0]), reqs[1..]);
      assert reqs == [reqs[0]] + reqs[1..];
      LastExplicitParentCons(reqs[0], reqs[1..], r.lastParentSpan);
    }
  }

  /** The fake span builder: every setter returns the same builder and
      changes nothing; starting a span always yields the blank span. */
  class FakeSpanBuilder {

    constructor ()
    {
    }

    method SetSampler(sampler: Sampler) returns (b: FakeSpanBuilder)
      ensures b == this
    {
      b := this;
    }

    method SetParentLinks(parentLinks: seq<Span>) returns (b: FakeSpanBuilder)
      ensures b == this
    {
      b := this;
    }

    method SetRecordEvents(recordEvents: bool) returns (b: FakeSpanBuilder)
      ensures b == this
    {
      b := this;
    }

    method StartSpan() returns (s: Span)
      ensures s == Blank
    {
      s := Blank;
    }
  }

  /** The fake tracer: remembers the last name and explicit parent. */
  class FakeTracer {
    var lastSpanName: Option<string>
    var lastParentSpan: Option<Span>

    /** The two recording fields as one value. */
    function State(): Recorded
      reads this
    {
      Recorded(lastSpanName, lastParentSpan)
    }

    constructor ()
      ensures State() == Initial
    {
      lastSpanName := None;
      lastParentSpan := None;
    }

    /** Records `s` and `span` (which may be `null`), overwriting both fields. */
    method SpanBuilderWithExplicitParent(s: string, span: Option<Span>) returns (builder: FakeSpanBuilder)
      modifies this
      ensures State() == Record(old(State()), WithExplicitParent(s, span))
      ensures fresh(builder)
    {
      lastSpanName := Some(s);
      lastParentSpan := span;
      builder := new FakeSpanBuilder();
    }

    /** Records `s` only; the recorded parent is left as it was. */
    method SpanBuilderWithRemoteParent(s: string, spanContext: Option<SpanContext>) returns (builder: FakeSpanBuilder)
      modifies this
      ensures State() == Record(old(State()), WithRemoteParent(s, spanContext))
      ensures fresh(builder)
    {
      lastSpanName := Some(s);
      builder := new FakeSpanBuilder();
    }
  }
}
