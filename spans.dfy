/** Spans and span names: the values the tracer factory works with. */
module Spans {
  import opened Wrappers

  /** A tracing span, compared by identity. `Blank` is the no-op sentinel
      (`BlankSpan.INSTANCE`) that stands for "no parent"; every other span is
      an opaque handle (a mocked span in the tests) told apart from the others
      and from `Blank` by its `id`. */
  datatype Span = Blank | Handle(id: nat)

  /** The identity of one logical RPC method: `SpanName.of(service, method)`. */
  datatype SpanName = SpanName(serviceName: string, methodName: string)
  {
    /** The canonical rendering: the service name, one dot, the method name,
        with no escaping of either part. */
    function ToString(): (r: string)
      ensures |r| == |serviceName| + 1 + |methodName|
      ensures r[..|serviceName|] == serviceName
      ensures r[|serviceName|] == '.'
      ensures r[|serviceName| + 1..] == methodName
    {
      serviceName + "." + methodName
    }
  }

  /** The name the factory hands to the backend: when an override is set it
      replaces the service segment; the method segment is always kept. */
  function EffectiveName(nameOverride: Option<string>, spanName: SpanName): (r: string)
    ensures nameOverride.None? ==> r == spanName.ToString()
    ensures |r| > |spanName.methodName|
    ensures r[|r| - |spanName.methodName| - 1] == '.'
    ensures r[|r| - |spanName.methodName|..] == spanName.methodName
  {
    SpanName(nameOverride.GetOr(spanName.serviceName), spanName.methodName).ToString()
  }

  /** For a fixed method, two renderings agree exactly when the services do. */
  lemma ToStringDeterminesService(a: string, b: string, methodName: string)
    ensures SpanName(a, methodName).ToString() == SpanName(b, methodName).ToString() <==> a == b
  {
  }

  /** For a fixed service, two renderings agree exactly when the methods do. */
  lemma ToStringDeterminesMethod(serviceName: string, m1: string, m2: string)
    ensures SpanName(serviceName, m1).ToString() == SpanName(serviceName, m2).ToString() <==> m1 == m2
  {
  }

  /** With no escaping, a dot inside a segment makes two different span names
      render alike. */
  lemma ToStringIsNotEscaped()
    ensures SpanName("a.b", "c") != SpanName("a", "b.c")
    ensures SpanName("a.b", "c").ToString() == SpanName("a", "b.c").ToString()
  {
  }

  /** An override renders as the override, one dot, then the unchanged method. */
  lemma OverrideReplacesService(client: string, spanName: SpanName)
    ensures EffectiveName(Some(client), spanName) == SpanName(client, spanName.methodName).ToString()
    ensures EffectiveName(Some(client), spanName)[..|client|] == client
    ensures EffectiveName(Some(client), spanName)[|client|..] == "." + spanName.methodName
  {
  }

  /** The override changes the name exactly when it differs from the service. */
  lemma OverrideChangesName(client: string, spanName: SpanName)
    ensures EffectiveName(Some(client), spanName) == EffectiveName(None, spanName)
            <==> client == spanName.serviceName
  {
  }

  /** The override is not prepended to the full name: "O.M", never "O.C.M". */
  lemma OverrideIsNotPrefixed(client: string, spanName: SpanName)
    ensures EffectiveName(Some(client), spanName) != client + "." + spanName.ToString()
  {
  }
}
