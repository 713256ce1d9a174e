/** lib/middleware.ts: the page route guard, the sliding-window rate limiter and the API
    middleware that applies it; plus the root dispatcher that picks one of the two. */
module Middleware {
  import opened Wrappers
  import opened Seqs
  import opened Strings

  const ProtectedRoutes: seq<string> :=
    ["/dashboard", "/rooms", "/drops", "/sessions", "/community", "/profile", "/settings"]

  /** What a middleware answers: let the request through, redirect it, or answer it directly. */
  datatype Decision = Next | RedirectTo(location: string) | Respond(status: int)

  /** `protectedRoutes.some(route => pathname.startsWith(route))`. */
  function IsProtected(path: string): (r: bool)
    ensures r <==> exists i :: 0 <= i < |ProtectedRoutes| && StartsWith(path, ProtectedRoutes[i])
  {
    StartsWithAny(path, ProtectedRoutes)
  }

  function StartsWithAny(path: string, prefixes: seq<string>): (r: bool)
    ensures r <==> exists i :: 0 <= i < |prefixes| && StartsWith(path, prefixes[i])
  {
    if prefixes == [] then false
    else
      assert forall i :: 1 <= i < |prefixes| ==> prefixes[i] == prefixes[1..][i - 1];
      StartsWith(path, prefixes[0]) || StartsWithAny(path, prefixes[1..])
  }

  /** `authMiddleware`. */
  function AuthMiddleware(path: string, token: Option<string>): Decision {
    if IsProtected(path) && !Truthy(token) then RedirectTo("/login")
    else if (path == "/login" || path == "/register") && Truthy(token) then RedirectTo("/dashboard")
    else Next
  }

  /** The three outcomes of the route guard, each stated in full. */
  lemma AuthMiddlewareSpec(path: string, token: Option<string>)
    ensures AuthMiddleware(path, token) == RedirectTo("/login") <==> IsProtected(path) && !Truthy(token)
    ensures AuthMiddleware(path, token) == RedirectTo("/dashboard") <==>
      Truthy(token) && (path == "/login" || path == "/register")
    ensures AuthMiddleware(path, token) == Next <==>
      (!IsProtected(path) || Truthy(token)) && !(Truthy(token) && (path == "/login" || path == "/register"))
  {
  }

  lemma NotPrefixAt(s: string, p: string, k: nat)
    requires k < |s| && k < |p| && s[k] != p[k]
    ensures !StartsWith(s, p)
  {
  }

  /** The login and register pages are not protected, so without a token they are
      served, and with one they redirect to the dashboard. */
  lemma LoginPagesOpen(token: Option<string>)
    ensures AuthMiddleware("/login", token) == if Truthy(token) then RedirectTo("/dashboard") else Next
    ensures AuthMiddleware("/register", token) == if Truthy(token) then RedirectTo("/dashboard") else Next
  {
    forall i | 0 <= i < |ProtectedRoutes| ensures !StartsWith("/login", ProtectedRoutes[i]) {
      NotPrefixAt("/login", ProtectedRoutes[i], 1);
    }
    forall i | 0 <= i < |ProtectedRoutes| ensures !StartsWith("/register", ProtectedRoutes[i]) {
      if i == 1 {
        NotPrefixAt("/register", ProtectedRoutes[i], 2);
      } else {
        NotPrefixAt("/register", ProtectedRoutes[i], 1);
      }
    }
  }

  /** The guard matches on prefixes, so any path that merely begins like a protected
      one is protected too: "/roomsXYZ" needs a token just as "/rooms/1" does. */
  lemma ProtectedIsPrefixMatch(route: string, rest: string)
    requires route in ProtectedRoutes
    ensures IsProtected(route + rest)
  {
    var i :| 0 <= i < |ProtectedRoutes| && ProtectedRoutes[i] == route;
    assert StartsWith(route + rest, ProtectedRoutes[i]);
  }

  /** The request timestamps kept for one identifier that are still inside the window:
      every one strictly later than `now - windowMs`, in stored order, and no other. */
  function InWindow(requests: seq<int>, now: int, windowMs: int): (r: seq<int>)
    ensures forall i :: 0 <= i < |r| ==> r[i] > now - windowMs
    ensures forall t :: t in r <==> t in requests && t > now - windowMs
    ensures IsSubsequence(r, requests)
  {
    var recent := (t: int) => t > now - windowMs;
    FilterMembers(requests, recent);
    FilterIsSubsequence(requests, recent);
    Filter(requests, recent)
  }

  /** The module-level `rateLimitMap`, from identifier to request timestamps. */
  class RateLimiter {
    var requests: map<string, seq<int>>

    constructor ()
      ensures requests == map[]
    {
      requests := map[];
    }

    /** The timestamps stored for `id`, `[]` when it has none yet. */
    function Stored(id: string): seq<int>
      reads this
    {
      if id in requests then requests[id] else []
    }

    /** `rateLimit(identifier, limit, windowMs)` at time `now`. A request is denied when
        the stored timestamps inside the window already number `limit`; the list is then
        left as it was (an identifier seen for the first time still gets an empty one).
        An allowed request stores the in-window timestamps followed by `now`. No other
        identifier's entry changes. */
    method RateLimit(id: string, limit: int, windowMs: int, now: int) returns (allowed: bool)
      modifies this
      ensures var valid := InWindow(old(Stored(id)), now, windowMs);
        && (allowed <==> |valid| < limit)
        && requests == old(requests)[id := if allowed then valid + [now] else old(Stored(id))]
      ensures allowed ==> |requests[id]| <= limit
    {
      if id !in requests {
        requests := requests[id := []];
      }
      var valid := InWindow(requests[id], now, windowMs);
      if |valid| >= limit {
        return false;
      }
      requests := requests[id := valid + [now]];
      allowed := true;
    }
  }

  /** The rate-limit key of a request: `request.ip || x-forwarded-for || "unknown"`,
      where an empty string counts as absent. */
  function ClientId(ip: Option<string>, forwardedFor: Option<string>): (r: string)
    ensures r != ""
    ensures Truthy(ip) ==> r == ip.value
    ensures !Truthy(ip) && Truthy(forwardedFor) ==> r == forwardedFor.value
    ensures !Truthy(ip) && !Truthy(forwardedFor) ==> r == "unknown"
  {
    if Truthy(ip) then ip.value
    else if Truthy(forwardedFor) then forwardedFor.value
    else "unknown"
  }

  const ApiLimit := 100
  const ApiWindowMs := 60000

  /** `apiMiddleware`: a preflight OPTIONS request is answered with 200 before the rate
      limiter is consulted, so it consumes no quota; any other request is charged to its
      client and gets 429 exactly when `rateLimit(ip, 100, 60000)` refuses it. The CORS
      headers are not modelled. */
  method ApiMiddleware(limiter: RateLimiter, httpMethod: string, ip: Option<string>,
                       forwardedFor: Option<string>, now: int) returns (d: Decision)
    modifies limiter
    ensures httpMethod == "OPTIONS" ==> d == Respond(200) && limiter.requests == old(limiter.requests)
    ensures httpMethod != "OPTIONS" ==>
      var id := ClientId(ip, forwardedFor);
      var valid := InWindow(old(limiter.Stored(id)), now, ApiWindowMs);
      && (d == Respond(429) <==> |valid| >= ApiLimit)
      && (d != Respond(429) ==> d == Next)
      && limiter.requests == old(limiter.requests)[id := if |valid| < ApiLimit then valid + [now] else old(limiter.Stored(id))]
  {
    if httpMethod == "OPTIONS" {
      return Respond(200);
    }
    var allowed := limiter.RateLimit(ClientId(ip, forwardedFor), ApiLimit, ApiWindowMs, now);
    d := if allowed then Next else Respond(429);
  }

  /** The root `middleware`: paths under "/api" go to the API middleware, all others to
      the route guard. */
  method Dispatch(limiter: RateLimiter, path: string, token: Option<string>, httpMethod: string,
                  ip: Option<string>, forwardedFor: Option<string>, now: int) returns (d: Decision)
    modifies limiter
    ensures !StartsWith(path, "/api") ==> d == AuthMiddleware(path, token) && limiter.requests == old(limiter.requests)
    ensures StartsWith(path, "/api") && httpMethod == "OPTIONS" ==>
      d == Respond(200) && limiter.requests == old(limiter.requests)
    ensures StartsWith(path, "/api") && httpMethod != "OPTIONS" ==>
      var id := ClientId(ip, forwardedFor);
      var valid := InWindow(old(limiter.Stored(id)), now, ApiWindowMs);
      && (d == Respond(429) <==> |valid| >= ApiLimit)
      && (d != Respond(429) ==> d == Next)
      && limiter.requests == old(limiter.requests)[id := if |valid| < ApiLimit then valid + [now] else old(limiter.Stored(id))]
  {
    if StartsWith(path, "/api") {
      d := ApiMiddleware(limiter, httpMethod, ip, forwardedFor, now);
    } else {
      d := AuthMiddleware(path, token);
    }
  }
}
