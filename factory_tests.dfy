/** The factory's four test scenarios, each run against a fresh fake tracer;
    each method returns what the test inspects and states what it asserts. */
module FactoryTests {
  import opened Wrappers
  import opened Spans
  import opened FakeBackend
  import opened TracerFactory

  /** The mocked span attached as the ambient current span. */
  const MockParent := Handle(1)

  /** Without an override the backend gets "FakeClient.FakeMethod". */
  method SpanNamePassthrough() returns (lastSpanName: Option<string>)
    ensures lastSpanName == Some("FakeClient.FakeMethod")
  {
    var tracer := new FakeTracer();
    var factory := new OpencensusTracerFactory(tracer, None);
    factory.NewTracer(SpanName("FakeClient", "FakeMethod"), None);
    lastSpanName := tracer.lastSpanName;
    assert EffectiveName(None, SpanName("FakeClient", "FakeMethod")) == "FakeClient" + "." + "FakeMethod";
    assert "FakeClient" + "." + "FakeMethod" == "FakeClient.FakeMethod";
  }

  /** A root tracer gets the blank span as parent although a span is attached. */
  method Root() returns (lastParentSpan: Option<Span>)
    ensures lastParentSpan == Some(Blank)
  {
    var tracer := new FakeTracer();
    var factory := new OpencensusTracerFactory(tracer, None);
    factory.NewRootTracer(SpanName("FakeClient", "FakeMethod"), Some(MockParent));
    lastParentSpan := tracer.lastParentSpan;
  }

  /** A child tracer gets the attached span itself as parent. */
  method Child() returns (lastParentSpan: Option<Span>)
    ensures lastParentSpan == Some(MockParent)
    ensures lastParentSpan != Some(Blank)
  {
    var tracer := new FakeTracer();
    var factory := new OpencensusTracerFactory(tracer, None);
    factory.NewTracer(SpanName("FakeClient", "FakeMethod"), Some(MockParent));
    lastParentSpan := tracer.lastParentSpan;
  }

  /** The override replaces the service segment: "OverridenClient.FakeMethod". */
  method SpanNameOverride() returns (lastSpanName: Option<string>)
    ensures lastSpanName == Some("OverridenClient.FakeMethod")
  {
    var tracer := new FakeTracer();
    var factory := new OpencensusTracerFactory(tracer, Some("OverridenClient"));
    factory.NewTracer(SpanName("FakeClient", "FakeMethod"), None);
    lastSpanName := tracer.lastSpanName;
    assert EffectiveName(Some("OverridenClient"), SpanName("FakeClient", "FakeMethod"))
           == "OverridenClient" + "." + "FakeMethod";
    assert "OverridenClient" + "." + "FakeMethod" == "OverridenClient.FakeMethod";
  }
}
