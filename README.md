# OpenCensus tracer factory: span naming and parent resolution

This project models how the gax tracing layer's `OpencensusTracerFactory` asks an
OpenCensus backend for a new span, and proves facts about that model. The model is
built from the factory's unit test, which plugs in a fake backend and checks what
the factory handed to it.

- **Naming.** The backend gets `service + "." + method`. When the factory was built
  with a client-name override, it gets `override + "." + method` instead.
- **Parent.** `newTracer` passes the span currently attached as the ambient span,
  the very same span, as the explicit parent. Nothing attached means the blank span.
  `newRootTracer` always passes the blank span (`BlankSpan.INSTANCE`), even while
  another span is attached.
- **Fake backend.** `FakeTracer` has two mutable fields. Each builder call
  overwrites the name; only the explicit-parent call overwrites the parent. `FakeSpanBuilder`'s setters return the same builder and change
  nothing. Its `startSpan` yields the blank span.

Files:

- `wrappers.dfy`: `Option`, which stands for Java `null` and for an absent ambient span.
- `spans.dfy`: `Span` (with `Blank`), `SpanName`, and the naming rule `EffectiveName`.
- `fake_backend.dfy`: the fake tracer and span builder as classes. It also has their
  recorded state as a value (`Recorded`), the effect of one call (`Record`) and of a
  sequence of calls (`Replay`). `Replay` and `LastExplicitParent` (the last
  explicit parent in a call sequence, read from the end) are proof devices: the
  lemmas `ReplayLastNameWins` and `ReplayLastParentWins` connect them.
- `tracer_factory.dfy`: parent resolution (`ResolveParent`), the request a factory
  call makes (`SpanRequest`) and the factory class.
- `factory_tests.dfy`: the four test scenarios. Each is a method that returns what
  its test inspects. Its `ensures` states what the test asserts.

The ambient span is a parameter: `None` means nothing is attached. The thread-local
lookup is not modelled. Spans are compared by value. A mocked span is a `Handle(id)`,
which is distinct from `Blank`, so "is that exact span" becomes an equality.

The override string in the test is spelled `"OverridenClient"`. The model uses the
test's spelling.

## Model

| member | source | states |
|---|---|---|
| `Spans.SpanName.ToString` | gax/src/test/java/com/google/api/gax/tracing/OpencensusTracerFactoryTest.java:69-71 | the rendering is the service name, then exactly one `'.'`, then the method name, and its length is the sum of the two plus one |
| `Spans.EffectiveName` | gax/src/test/java/com/google/api/gax/tracing/OpencensusTracerFactoryTest.java:108-116 | with no override the name is the canonical rendering; in every case it ends with `'.'` followed by the unchanged method name |
| `Spans.ToStringDeterminesService` | gax/src/test/java/com/google/api/gax/tracing/OpencensusTracerFactoryTest.java:108-116 | for a fixed method, two renderings are equal if and only if the service names are equal |
| `Spans.ToStringDeterminesMethod` | gax/src/test/java/com/google/api/gax/tracing/OpencensusTracerFactoryTest.java:65-72 | for a fixed service, two renderings are equal if and only if the method names are equal |
| `Spans.ToStringIsNotEscaped` | gax/src/test/java/com/google/api/gax/tracing/OpencensusTracerFactoryTest.java:71 | dots are not escaped, so two distinct span names (`a.b`/`c` and `a`/`b.c`) render alike |
| `Spans.OverrideReplacesService` | gax/src/test/java/com/google/api/gax/tracing/OpencensusTracerFactoryTest.java:110-115 | with an override the name is the override's rendering with the original method: it starts with the override and continues with `"." + method` |
| `Spans.OverrideChangesName` | gax/src/test/java/com/google/api/gax/tracing/OpencensusTracerFactoryTest.java:108-116 | an override yields the same name as no override if and only if it equals the service name |
| `Spans.OverrideIsNotPrefixed` | gax/src/test/java/com/google/api/gax/tracing/OpencensusTracerFactoryTest.java:113-115 | the override replaces the service name and is not put in front of the full name: never `O.C.M` |
| `TracerFactory.ResolveParent` | gax/src/test/java/com/google/api/gax/tracing/OpencensusTracerFactoryTest.java:91-106 | the chosen parent is always either the blank span or exactly the attached ambient span, never another value |
| `TracerFactory.ChildTakesAmbient` | gax/src/test/java/com/google/api/gax/tracing/OpencensusTracerFactoryTest.java:95-105 | in child mode, when a span is attached, the parent is that span itself |
| `TracerFactory.ChildWithoutAmbientIsBlank` | gax/src/test/java/com/google/api/gax/tracing/OpencensusTracerFactoryTest.java:67-69 | in child mode, when nothing is attached, the parent is the blank span (the ambient-lookup rule; the test at these lines asserts only the name) |
| `TracerFactory.RootIgnoresAmbient` | gax/src/test/java/com/google/api/gax/tracing/OpencensusTracerFactoryTest.java:74-89 | in root mode the parent is the blank span, whatever is attached |
| `TracerFactory.ModesAgreeIffNoAmbient` | gax/src/test/java/com/google/api/gax/tracing/OpencensusTracerFactoryTest.java:74-106 | root and child mode choose the same parent if and only if nothing, or the blank span, is attached |
| `TracerFactory.SpanRequest` | gax/src/test/java/com/google/api/gax/tracing/OpencensusTracerFactoryTest.java:122-127 | a factory call uses the explicit-parent builder and passes the effective name and a parent that is never `null` (by the ambient-lookup rule, although the fake would accept `null`) |
| `TracerFactory.FactoryCallRecords` | gax/src/test/java/com/google/api/gax/tracing/OpencensusTracerFactoryTest.java:122-127 | after a factory call the fake holds the effective name and the resolved parent, whatever it held before |
| `TracerFactory.LastFactoryCallWins` | gax/src/test/java/com/google/api/gax/tracing/OpencensusTracerFactoryTest.java:118-133 | after any earlier builder calls followed by one factory call, the fake shows only that last call |
| `FakeBackend.Record` | gax/src/test/java/com/google/api/gax/tracing/OpencensusTracerFactoryTest.java:122-133 | both builder variants overwrite the recorded name; the explicit-parent variant overwrites the parent with its argument; the remote-parent variant keeps the old parent |
| `FakeBackend.ReplayLastNameWins` | gax/src/test/java/com/google/api/gax/tracing/OpencensusTracerFactoryTest.java:122-133 | after a non-empty sequence of builder calls, the recorded name is the last call's name |
| `FakeBackend.ReplayLastParentWins` | gax/src/test/java/com/google/api/gax/tracing/OpencensusTracerFactoryTest.java:122-133 | after any sequence of builder calls, the recorded parent is the last explicit-parent call's parent, or the old parent when there is none |
| `FakeBackend.FakeSpanBuilder.SetSampler` | gax/src/test/java/com/google/api/gax/tracing/OpencensusTracerFactoryTest.java:137-140 | returns the same builder and modifies nothing |
| `FakeBackend.FakeSpanBuilder.SetParentLinks` | gax/src/test/java/com/google/api/gax/tracing/OpencensusTracerFactoryTest.java:142-145 | returns the same builder and modifies nothing |
| `FakeBackend.FakeSpanBuilder.SetRecordEvents` | gax/src/test/java/com/google/api/gax/tracing/OpencensusTracerFactoryTest.java:147-150 | returns the same builder and modifies nothing |
| `FakeBackend.FakeSpanBuilder.StartSpan` | gax/src/test/java/com/google/api/gax/tracing/OpencensusTracerFactoryTest.java:152-155 | always returns the blank span |
| `FakeBackend.FakeTracer.constructor` | gax/src/test/java/com/google/api/gax/tracing/OpencensusTracerFactoryTest.java:118-120 | a new fake has recorded no name and no parent (both `null`) |
| `FakeBackend.FakeTracer.SpanBuilderWithExplicitParent` | gax/src/test/java/com/google/api/gax/tracing/OpencensusTracerFactoryTest.java:122-127 | the new recorded state is `Record` of the old with this call: both fields take the arguments; returns a fresh builder |
| `FakeBackend.FakeTracer.SpanBuilderWithRemoteParent` | gax/src/test/java/com/google/api/gax/tracing/OpencensusTracerFactoryTest.java:129-133 | the new recorded state is `Record` of the old with this call: the name is overwritten and the parent is kept; returns a fresh builder |
| `TracerFactory.OpencensusTracerFactory.constructor` | gax/src/test/java/com/google/api/gax/tracing/OpencensusTracerFactoryTest.java:67 | the factory keeps the given tracer (shared, not copied) and the given override |
| `TracerFactory.OpencensusTracerFactory.NewTracer` | gax/src/test/java/com/google/api/gax/tracing/OpencensusTracerFactoryTest.java:91-106 | only the tracer changes, by one child-mode request: the effective name and, as parent, the ambient span or the blank span |
| `TracerFactory.OpencensusTracerFactory.NewRootTracer` | gax/src/test/java/com/google/api/gax/tracing/OpencensusTracerFactoryTest.java:74-89 | only the tracer changes, by one root-mode request: the effective name and the blank span as parent |
| `FactoryTests.SpanNamePassthrough` | gax/src/test/java/com/google/api/gax/tracing/OpencensusTracerFactoryTest.java:65-72 | with no override, the recorded name is `"FakeClient.FakeMethod"` |
| `FactoryTests.Root` | gax/src/test/java/com/google/api/gax/tracing/OpencensusTracerFactoryTest.java:74-89 | a root tracer created while a mock span is attached records the blank span as parent |
| `FactoryTests.Child` | gax/src/test/java/com/google/api/gax/tracing/OpencensusTracerFactoryTest.java:91-106 | a tracer created while a mock span is attached records that span as parent, not the blank span |
| `FactoryTests.SpanNameOverride` | gax/src/test/java/com/google/api/gax/tracing/OpencensusTracerFactoryTest.java:108-116 | with override `"OverridenClient"`, the recorded name is `"OverridenClient.FakeMethod"` |

## Left out

- The ambient context (gRPC `Context` attach/detach and the thread-local current-span lookup) is not modelled. The ambient span is an explicit `Option<Span>` parameter. Isolation between threads is the job of that mechanism, not of the factory.
- Mockito's `mock(Span.class)` and the JUnit, Truth and Mockito rule plumbing are left out. A mock span is an opaque `Handle(id)`, distinct from `Blank`.
- `OpencensusTracer`, the `ApiTracer` the factory returns, is not modelled. Neither is whatever the factory does with the returned builder. The `OpencensusTracerFactory` class is rebuilt from what its tests assert. `NewTracer` and `NewRootTracer` therefore return nothing.
- `TracerFactory.ChildWithoutAmbientIsBlank`: no test line checks the parent when nothing is attached; the rule that the lookup then yields the blank span comes from the design of the ambient lookup, not from the test.
- `TracerFactory.SpanRequest`: the fake accepts a `null` parent (`@Nullable`); that the factory never passes one follows from the same ambient-lookup rule, not from a test assertion.
- `SpanName` is not part of this model beyond its two fields and its rendering. The argument validation of `SpanName.of` (null or empty parts) is not asserted by the test and is not modelled.
- A `null` backend tracer cannot be expressed here: Dafny class references are non-null. An empty override string is treated like any other override. The test does not settle either case.
- The factory holds the fake tracer directly rather than an abstract `Tracer`. The backend interface is polymorphic in the original; the model has only the test's fake implementation.
- `Sampler`, the parent-link list and the record-events flag are accepted by the fake builder and ignored. `Sampler` and `SpanContext` are opaque datatypes without fields; their contents are not modelled.
