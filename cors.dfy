/**
 * The CORS middleware: the configured origins are normalised once, then each
 * request with an `Origin` header gets the allow headers when its origin is
 * accepted, and a preflight `OPTIONS` request is answered 204 on the spot.
 */
module Cors {
  import opened Strings

  /** How `normalizeOrigins` prepares one configured entry. */
  function NormalizeEntry(o: string): string {
    ToLower(TrimSpace(o))
  }

  /** The normalised entries of `origins` that are not empty. */
  function Entries(origins: seq<string>): (r: set<string>)
    ensures "" !in r
  {
    if |origins| == 0 then {}
    else
      var e := NormalizeEntry(origins[|origins| - 1]);
      Entries(origins[..|origins| - 1]) + (if e == "" then {} else {e})
  }

  /** The allow-set `normalizeOrigins` builds: the entries, or `{"*"}` when none is left. */
  function AllowSet(origins: seq<string>): (r: set<string>)
    ensures r != {}
  {
    var entries := Entries(origins);
    if entries == {} then {"*"} else entries
  }

  /** `normalizeOrigins`: lower-case and trim every entry, skip the blank ones. */
  method NormalizeOrigins(origins: seq<string>) returns (allowed: set<string>)
    ensures allowed == AllowSet(origins)
  {
    allowed := {};
    for i := 0 to |origins|
      invariant allowed == Entries(origins[..i])
    {
      assert origins[..i + 1][..i] == origins[..i];
      var trimmed := ToLower(TrimSpace(origins[i]));
      if trimmed == "" {
        continue;
      }
      allowed := allowed + {trimmed};
    }
    assert origins[..|origins|] == origins;
    if |allowed| == 0 {
      allowed := {"*"};
    }
  }

  /** Entry `i` of `origins` normalises to `x`. */
  predicate OriginAt(origins: seq<string>, i: int, x: string) {
    0 <= i < |origins| && NormalizeEntry(origins[i]) == x
  }

  /** A string is in the allow-set's entries exactly when some configured entry normalises to it. */
  lemma {:induction false} EntriesMembership(origins: seq<string>, x: string)
    ensures x in Entries(origins) <==> x != "" && exists i :: OriginAt(origins, i, x)
  {
    if |origins| > 0 {
      var n := |origins| - 1;
      var init := origins[..n];
      var e := NormalizeEntry(origins[n]);
      assert Entries(origins) == Entries(init) + (if e == "" then {} else {e});
      EntriesMembership(init, x);
      if x in Entries(origins) {
        if x in Entries(init) {
          var i :| 0 <= i < |init| && NormalizeEntry(init[i]) == x;
          assert origins[i] == init[i];
          assert OriginAt(origins, i, x);
        } else {
          assert OriginAt(origins, n, x);
        }
      }
      if x != "" && exists i :: OriginAt(origins, i, x) {
        var i :| 0 <= i < |origins| && NormalizeEntry(origins[i]) == x;
        if i < n {
          assert init[i] == origins[i];
          assert OriginAt(init, i, x);
        }
      }
    }
  }

  /** The wildcard is allowed exactly when it was configured or nothing usable was. */
  lemma WildcardAllowed(origins: seq<string>)
    ensures "*" in AllowSet(origins) <==>
      (Entries(origins) == {} || exists i :: OriginAt(origins, i, "*"))
  {
    EntriesMembership(origins, "*");
  }

  /** An origin is accepted when the wildcard is allowed or its lower-cased form is listed. */
  predicate Accepted(allowed: set<string>, origin: string) {
    "*" in allowed || ToLower(origin) in allowed
  }

  datatype Header = Header(name: string, value: string)

  /** What the middleware does to one request: headers written, then either continue or stop with a status. */
  datatype Outcome = Next(headers: seq<Header>) | Abort(status: int, headers: seq<Header>)

  /** The five headers written for an accepted origin; the origin is echoed as sent. */
  function AllowHeaders(origin: string): seq<Header> {
    [ Header("Access-Control-Allow-Origin", origin),
      Header("Vary", "Origin"),
      Header("Access-Control-Allow-Methods", "GET,POST,PUT,DELETE,OPTIONS"),
      Header("Access-Control-Allow-Headers", "Content-Type, Authorization, X-Requested-With"),
      Header("Access-Control-Allow-Credentials", "true") ]
  }

  /** The per-request decision of `CORS`. */
  function Decide(allowed: set<string>, origin: string, httpMethod: string): (r: Outcome)
    ensures origin == "" ==> r == Next([])
    ensures origin != "" ==> (r.headers != [] <==> Accepted(allowed, origin))
    ensures r.headers != [] ==> r.headers[0] == Header("Access-Control-Allow-Origin", origin)
    ensures origin != "" && Accepted(allowed, origin) ==> r.headers == AllowHeaders(origin)
    ensures r.Abort? <==> origin != "" && httpMethod == "OPTIONS"
    ensures r.Abort? ==> r.status == 204
  {
    if origin == "" then Next([])
    else
      var headers := if Accepted(allowed, origin) then AllowHeaders(origin) else [];
      if httpMethod == "OPTIONS" then Abort(204, headers) else Next(headers)
  }

  /** With no usable origin configured, every request that names an origin gets the allow headers. */
  lemma UnconfiguredAllowsAll(origins: seq<string>, origin: string, httpMethod: string)
    requires forall i | 0 <= i < |origins| :: NormalizeEntry(origins[i]) == ""
    requires origin != ""
    ensures Decide(AllowSet(origins), origin, httpMethod).headers == AllowHeaders(origin)
  {
    if Entries(origins) != {} {
      var x :| x in Entries(origins);
      EntriesMembership(origins, x);
    }
  }

  /**
   * A request origin matching a configured entry up to letter case and the
   * entry's surrounding white space is accepted.
   */
  lemma ConfiguredOriginAccepted(origins: seq<string>, i: int, origin: string)
    requires 0 <= i < |origins|
    requires origin != "" && ToLower(origin) == NormalizeEntry(origins[i])
    ensures Accepted(AllowSet(origins), origin)
  {
    EntriesMembership(origins, ToLower(origin));
    assert OriginAt(origins, i, ToLower(origin));
  }

  /** An origin outside a configured list without the wildcard is refused, but its preflight still ends in 204. */
  lemma UnlistedPreflightRefused(origins: seq<string>, origin: string)
    requires origin != ""
    requires forall i | 0 <= i < |origins| :: NormalizeEntry(origins[i]) != ToLower(origin) && NormalizeEntry(origins[i]) != "*"
    requires exists i | 0 <= i < |origins| :: NormalizeEntry(origins[i]) != ""
    ensures Decide(AllowSet(origins), origin, "OPTIONS") == Abort(204, [])
  {
    var i :| 0 <= i < |origins| && NormalizeEntry(origins[i]) != "";
    EntriesMembership(origins, NormalizeEntry(origins[i]));
    assert OriginAt(origins, i, NormalizeEntry(origins[i]));
    EntriesMembership(origins, ToLower(origin));
    EntriesMembership(origins, "*");
  }
}
