/** The OpenCensus tracer factory: turns a span name into a span-builder
    request on the backend, choosing the effective name and the parent. */
module TracerFactory {
  import opened Wrappers
  import opened Spans
  import opened FakeBackend

  /** `Child` continues the ambient trace (`newTracer`); `Root` starts a new
      trace (`newRootTracer`). */
  datatype Mode = Child | Root

  /** The explicit parent for a new span. `ambient` is the span attached as
      current, `None` when nothing is attached (the lookup then yields the blank
      span). The result is always the blank span or the ambient span itself. */
  function ResolveParent(mode: Mode, ambient: Option<Span>): (p: Span)
    ensures p == Blank || ambient == Some(p)
  {
    match mode
    case Root => Blank
    case Child => ambient.GetOr(Blank)
  }

  /** A child span's parent is exactly the attached ambient span. */
  lemma ChildTakesAmbient(ambientSpan: Span)
    ensures ResolveParent(Child, Some(ambientSpan)) == ambientSpan
  {
  }

  /** With nothing attached, a child span's parent is the blank span. */
  lemma ChildWithoutAmbientIsBlank()
    ensures ResolveParent(Child, None) == Blank
  {
  }

  /** A root span's parent is the blank span, whatever is attached. */
  lemma RootIgnoresAmbient(ambient: Option<Span>)
    ensures ResolveParent(Root, ambient) == Blank
  {
  }

  /** The two modes choose the same parent exactly when no span other than
      the blank span is attached. */
  lemma ModesAgreeIffNoAmbient(ambient: Option<Span>)
    ensures ResolveParent(Root, ambient) == ResolveParent(Child, ambient)
            <==> (ambient == None || ambient == Some(Blank))
  {
  }

  /** The one backend request a factory call makes: always the explicit-parent
      variant, never with a `null` parent. */
  function SpanRequest(nameOverride: Option<string>, spanName: SpanName, mode: Mode, ambient: Option<Span>): (req: BuilderRequest)
    ensures req.WithExplicitParent? && req.parent.Some?
    ensures req.name == EffectiveName(nameOverride, spanName)
  {
    WithExplicitParent(EffectiveName(nameOverride, spanName), Some(ResolveParent(mode, ambient)))
  }

  /** What the fake tracer holds after a factory call, whatever it held before. */
  lemma FactoryCallRecords(old_: Recorded, nameOverride: Option<string>, spanName: SpanName, mode: Mode, ambient: Option<Span>)
    ensures Record(old_, SpanRequest(nameOverride, spanName, mode, ambient))
            == Recorded(Some(EffectiveName(nameOverride, spanName)), Some(ResolveParent(mode, ambient)))
  {
  }

  /** After any sequence of factory calls, the record shows only the last one. */
  lemma {:induction false} LastFactoryCallWins(r: Recorded, calls: seq<BuilderRequest>, nameOverride: Option<string>, spanName: SpanName, mode: Mode, ambient: Option<Span>)
    ensures Replay(r, calls + [SpanRequest(nameOverride, spanName, mode, ambient)])
            == Recorded(Some(EffectiveName(nameOverride, spanName)), Some(ResolveParent(mode, ambient)))
  {
    var reqs := calls + [SpanRequest(nameOverride, spanName, mode, ambient)];
    ReplayLastNameWins(r, reqs);
    ReplayLastParentWins(r, reqs);
    assert reqs[..|reqs| - 1] == calls;
  }

  /** `OpencensusTracerFactory`: a backend tracer, shared with its creator,
      and an optional override of the service segment of span names. */
  class OpencensusTracerFactory {
    const internalTracer: FakeTracer
    const clientNameOverride: Option<string>

    constructor (internalTracer: FakeTracer, clientNameOverride: Option<string>)
      ensures this.internalTracer == internalTracer
      ensures this.clientNameOverride == clientNameOverride
    {
      this.internalTracer := internalTracer;
      this.clientNameOverride := clientNameOverride;
    }

    /** `newTracer`: a span named by the effective name whose explicit parent
        is the ambient span (the blank span when none is attached). */
    method NewTracer(spanName: SpanName, ambient: Option<Span>)
      modifies internalTracer
      ensures internalTracer.State()
              == Record(old(internalTracer.State()), SpanRequest(clientNameOverride, spanName, Child, ambient))
    {
      var builder := internalTracer.SpanBuilderWithExplicitParent(
        EffectiveName(clientNameOverride, spanName), Some(ResolveParent(Child, ambient)));
    }

    /** `newRootTracer`: the same name, but the explicit parent is forced to the
        blank span even when a span is attached. */
    method NewRootTracer(spanName: SpanName, ambient: Option<Span>)
      modifies internalTracer
      ensures internalTracer.State()
              == Record(old(internalTracer.State()), SpanRequest(clientNameOverride, spanName, Root, ambient))
    {
      var builder := internalTracer.SpanBuilderWithExplicitParent(
        EffectiveName(clientNameOverride, spanName), Some(ResolveParent(Root, ambient)));
    }
  }
}
