/**
  The HTTP vocabulary the client works with: verbs, outbound requests as
  values, and the exchange a call ends in (a response, or a transport
  failure). Execution itself belongs to the HTTP library and is not modelled.
 */
module Http {
  import opened JavaText

  datatype Verb = GET | POST | PUT | PATCH | DELETE

  /** A header or a query parameter. */
  datatype Pair = Pair(name: string, value: string)

  /** An outbound request: verb, path relative to the base URL, query parameters and headers, in order. */
  datatype Request = Request(verb: Verb, path: string, query: seq<Pair>, headers: seq<Pair>)

  /** The values recorded under `name`, in order. */
  function Values(ps: seq<Pair>, name: string): (vs: seq<string>)
    ensures |vs| <= |ps|
    ensures forall v :: v in vs ==> Pair(name, v) in ps
  {
    if ps == [] then []
    else (if ps[0].name == name then [ps[0].value] else []) + Values(ps[1..], name)
  }

  lemma {:induction false} ValuesAppend(a: seq<Pair>, b: seq<Pair>, name: string)
    ensures Values(a + b, name) == Values(a, name) + Values(b, name)
  {
    if a != [] {
      assert (a + b)[1..] == a[1..] + b;
      ValuesAppend(a[1..], b, name);
    } else {
      assert a + b == b;
    }
  }

  lemma ValuesSnoc(ps: seq<Pair>, p: Pair, name: string)
    ensures Values(ps + [p], name) == Values(ps, name) + (if p.name == name then [p.value] else [])
  {
    ValuesAppend(ps, [p], name);
    assert Values([p], name) == (if p.name == name then [p.value] else []) + Values([], name);
  }

  /** Retrofit's `Response.isSuccessful()`: the code is in the range 200..299. */
  predicate IsSuccessful(code: int) {
    200 <= code < 300
  }

  /** What one execution of a call ends in. `B` is the decoded body type of the call. */
  datatype Exchange<B> =
    | Received(code: int, message: string, body: Option<B>)
    | TransportFailed(cause: string)
}
