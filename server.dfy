/** The CORS policy of the HTTP server. */
module Server {
  import opened Common

  const LocalOrigin8080: string := "http://localhost:8080"
  const LocalOrigin5173: string := "http://localhost:5173"

  /** `filter(Boolean)` on a list of optional strings: drops absent and empty entries. */
  function Compact(xs: seq<Option<string>>): (r: seq<string>)
    ensures |r| <= |xs|
    ensures forall s :: s in r <==> s != "" && Some(s) in xs
  {
    if xs == [] then []
    else
      assert xs == [xs[0]] + xs[1..];
      (if Present(xs[0]) then [xs[0].value] else []) + Compact(xs[1..])
  }

  /** `allowedOrigins`: the two local development origins, then `FRONTEND_URL` if it is set. */
  function AllowedOrigins(frontendUrl: Option<string>): (r: seq<string>)
    ensures forall o :: o in r <==>
      o == LocalOrigin8080 || o == LocalOrigin5173 || (Present(frontendUrl) && o == frontendUrl.value)
    ensures |r| == if Present(frontendUrl) then 3 else 2
    ensures r[..2] == [LocalOrigin8080, LocalOrigin5173]
  {
    var xs := [Some(LocalOrigin8080), Some(LocalOrigin5173), frontendUrl];
    assert xs[1..] == [Some(LocalOrigin5173), frontendUrl];
    assert xs[1..][1..] == [frontendUrl];
    assert [frontendUrl][1..] == [];
    var tail := if Present(frontendUrl) then [frontendUrl.value] else [];
    assert Compact(xs[1..][1..]) == tail + Compact([]);
    assert Compact(xs[1..]) == [LocalOrigin5173] + tail;
    assert Compact(xs) == [LocalOrigin8080] + ([LocalOrigin5173] + tail);
    Compact(xs)
  }

  /** `Array.prototype.indexOf`: the first position of `x`, or -1. */
  function IndexOf(s: seq<string>, x: string): (i: int)
    ensures -1 <= i < |s|
    ensures i == -1 <==> x !in s
    ensures 0 <= i ==> s[i] == x && x !in s[..i]
  {
    if s == [] then -1
    else if s[0] == x then 0
    else
      var k := IndexOf(s[1..], x);
      assert s[1..][..k + 1] == s[1..k + 2] || k == -1;
      if k == -1 then -1 else k + 1
  }

  /** The answer of the `origin` callback: accept, or fail with an error. */
  datatype CorsDecision = Accept | Refuse(message: string)

  /** The `origin` callback: no origin is accepted, a listed origin is accepted, anything
      else is refused with "Not allowed by CORS". */
  function CheckOrigin(allowed: seq<string>, origin: Option<string>): (d: CorsDecision)
    ensures d == Accept <==> !Present(origin) || origin.value in allowed
    ensures d.Refuse? ==> d.message == "Not allowed by CORS"
  {
    if !Present(origin) then Accept
    else if IndexOf(allowed, origin.value) != -1 then Accept
    else Refuse("Not allowed by CORS")
  }

  /** The deployed policy: a request is accepted exactly when it has no origin, comes from
      one of the two local origins, or from `FRONTEND_URL` when that is set. */
  lemma DeployedPolicy(frontendUrl: Option<string>, origin: Option<string>)
    ensures CheckOrigin(AllowedOrigins(frontendUrl), origin) == Accept <==>
      || !Present(origin)
      || origin.value == LocalOrigin8080 || origin.value == LocalOrigin5173
      || (Present(frontendUrl) && origin == frontendUrl)
  {
  }
}
