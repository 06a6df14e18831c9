/** An outgoing HTTP request, recorded as data: the model returns the
    requests an operation would issue instead of issuing them. */
module Http {
  import opened Results
  import opened Json

  datatype Method = Get | Post | Patch

  datatype Header = Header(name: string, value: string)

  datatype Request = Request(verb: Method, url: string, headers: seq<Header>, body: Option<Json>)

  /** The value of the first header called `name`, if any. */
  function HeaderValue(headers: seq<Header>, name: string): (r: Option<string>)
    ensures r.None? <==> forall i :: 0 <= i < |headers| ==> headers[i].name != name
    ensures r.Some? ==> exists i :: 0 <= i < |headers| && headers[i] == Header(name, r.value)
  {
    if headers == [] then None
    else if headers[0].name == name then Some(headers[0].value)
    else
      var r := HeaderValue(headers[1..], name);
      assert r.Some? ==> headers[1..][0..] == headers[1..];
      r
  }
}
