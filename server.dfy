/** The decisions server.js makes itself: the CORS origin list and the predicate that
    admits an origin, the explicit preflight handler, the start-up connection test
    with its back-off, and the global error handler's status mapping. The Express
    application, the pool and the timers are not modelled; the environment variables
    and the outcome of each connection attempt are parameters. */
module Server {
  import opened Wrappers
  import opened Js
  import opened Text

  // ===========================================================================
  // Allowed origins

  const DefaultOrigin := "http://localhost:3000"

  /** Every entry trimmed, in order. */
  function TrimEach(parts: seq<string>): (r: seq<string>)
    ensures |r| == |parts|
    ensures forall k :: 0 <= k < |parts| ==> r[k] == Trim(parts[k])
  {
    seq(|parts|, k requires 0 <= k < |parts| => Trim(parts[k]))
  }

  /** `ALLOWED_ORIGINS ? ALLOWED_ORIGINS.split(',').map(o => o.trim()) : [default]`,
      where `env` is the variable, absent when it is not set. */
  function AllowedOrigins(env: Option<string>): seq<string>
  {
    if env.Some? && env.value != "" then TrimEach(Split(env.value, ",")) else [DefaultOrigin]
  }

  /** Without the variable, or with it empty, the list is the one default origin. */
  lemma DefaultOrigins(env: Option<string>)
    requires env.None? || env == Some("")
    ensures AllowedOrigins(env) == [DefaultOrigin]
  {
  }

  /** A set variable gives one entry per comma-separated piece: the piece trimmed, so
      with no comma and no white space at either end. */
  lemma OriginsFromVariable(v: string)
    requires v != ""
    ensures var r := AllowedOrigins(Some(v));
      && |r| == |Split(v, ",")|
      && forall k :: 0 <= k < |r| ==>
           && r[k] == Trim(Split(v, ",")[k])
           && ',' !in r[k]
           && (r[k] != "" ==> !IsSpace(r[k][0]) && !IsSpace(r[k][|r[k]| - 1]))
  {
    var parts := Split(v, ",");
    SplitPiecesAvoid(v, ",");
    forall k | 0 <= k < |parts|
      ensures ',' !in Trim(parts[k])
      ensures Trim(parts[k]) != "" ==> !IsSpace(Trim(parts[k])[0]) && !IsSpace(Trim(parts[k])[|Trim(parts[k])| - 1])
    {
      ContainsChar(parts[k], ',');
      TrimEnds(parts[k]);
    }
  }

  /** A list written without white space around its entries is read back as written:
      joining the entries with commas gives the variable again. */
  lemma OriginsRoundTrip(v: string)
    requires v != ""
    requires forall k :: 0 <= k < |Split(v, ",")| ==> NoSpace(Split(v, ",")[k])
    ensures Join(AllowedOrigins(Some(v)), ",") == v
  {
    var parts := Split(v, ",");
    forall k | 0 <= k < |parts| ensures Trim(parts[k]) == parts[k] {
      TrimNoSpace(parts[k]);
    }
    assert AllowedOrigins(Some(v)) == parts;
    SplitJoin(v, ",");
  }

  // ===========================================================================
  // The origin patterns

  const VercelStart := "https://lesagedev"
  const VercelEnd := ".vercel.app"
  const LocalhostStart := "http://localhost:"
  const LoopbackStart := "http://127.0.0.1:"

  /** `/^start.*end$/`: `start`, then any characters but line terminators, then `end`. */
  predicate Framed(s: string, start: string, end: string)
  {
    && |start| + |end| <= |s|
    && IsPrefix(start, s) && IsSuffix(end, s)
    && forall k :: |start| <= k < |s| - |end| ==> !IsLineTerminator(s[k])
  }

  /** `/^start\d+$/`: `start`, then one or more ASCII digits, and nothing else. */
  predicate WithPort(s: string, start: string)
  {
    && |start| < |s|
    && IsPrefix(start, s)
    && forall k :: |start| <= k < |s| ==> IsDigit(s[k])
  }

  /** The three patterns of `allowedPatterns`, in order. */
  predicate MatchesPattern(s: string)
  {
    || Framed(s, VercelStart, VercelEnd)
    || WithPort(s, LocalhostStart)
    || WithPort(s, LoopbackStart)
  }

  /** `start`, a middle without line terminators, and `end`, said by construction. */
  ghost predicate Between(s: string, start: string, end: string)
  {
    exists m :: s == start + m + end && forall k :: 0 <= k < |m| ==> !IsLineTerminator(m[k])
  }

  /** `start` and a non-empty run of digits, said by construction. */
  ghost predicate PortAddress(s: string, start: string)
  {
    exists port :: s == start + port && port != "" && forall k :: 0 <= k < |port| ==> IsDigit(port[k])
  }

  /** `Framed` matches exactly the strings `Between` builds. */
  lemma FramedIff(s: string, start: string, end: string)
    ensures Framed(s, start, end) <==> Between(s, start, end)
  {
    if Framed(s, start, end) {
      var m := s[|start|..|s| - |end|];
      assert s == s[..|start|] + m + s[|s| - |end|..];
      forall k | 0 <= k < |m| ensures !IsLineTerminator(m[k]) {
        assert m[k] == s[|start| + k];
      }
    }
    if Between(s, start, end) {
      var m :| s == start + m + end && forall k :: 0 <= k < |m| ==> !IsLineTerminator(m[k]);
      assert s[..|start|] == start;
      assert s[|s| - |end|..] == end;
      forall k | |start| <= k < |s| - |end| ensures !IsLineTerminator(s[k]) {
        assert s[k] == m[k - |start|];
      }
    }
  }

  /** `WithPort` matches exactly the strings `PortAddress` builds. */
  lemma WithPortIff(s: string, start: string)
    ensures WithPort(s, start) <==> PortAddress(s, start)
  {
    if WithPort(s, start) {
      var port := s[|start|..];
      assert s == s[..|start|] + port;
      forall k | 0 <= k < |port| ensures IsDigit(port[k]) {
        assert port[k] == s[|start| + k];
      }
    }
    if PortAddress(s, start) {
      var port :| s == start + port && port != "" && forall k :: 0 <= k < |port| ==> IsDigit(port[k]);
      assert s[..|start|] == start;
      forall k | |start| <= k < |s| ensures IsDigit(s[k]) {
        assert s[k] == port[k - |start|];
      }
    }
  }

  // ===========================================================================
  // The CORS decision

  /** The `origin` callback given to `cors`, as written: its three early returns.
      `origin` is the request's `Origin` header, absent when there is none. */
  function CorsCallback(origin: Option<string>, allowed: seq<string>): bool
  {
    if origin.None? || origin.value == "" then true
    else if origin.value in allowed then true
    else if MatchesPattern(origin.value) then true
    else false
  }

  /** The reply of the explicit `OPTIONS` handler: a status and the headers it sets. */
  datatype PreflightReply = PreflightReply(status: nat, headers: seq<(string, string)>)

  const AllowedMethods := "GET, POST, PUT, DELETE, OPTIONS, PATCH"
  const AllowedHeaders := "Content-Type, Authorization, X-Requested-With, Accept"

  /** `app.options('*', ...)`: its own copy of the admission test, the four headers
      when it admits, and 204 in every case. */
  function Preflight(origin: Option<string>, allowed: seq<string>): PreflightReply
  {
    var admitted := origin.None? || origin.value == "" || origin.value in allowed || MatchesPattern(origin.value);
    var echoed := if origin.Some? && origin.value != "" then origin.value else "*";
    if admitted then
      PreflightReply(204, [("Access-Control-Allow-Origin", echoed),
                           ("Access-Control-Allow-Methods", AllowedMethods),
                           ("Access-Control-Allow-Headers", AllowedHeaders),
                           ("Access-Control-Allow-Credentials", "true")])
    else PreflightReply(204, [])
  }

  /** The preflight handler and the `cors` callback admit the same origins; the
      preflight always answers 204, and when it admits a named origin it echoes that
      origin rather than `*`. */
  lemma PreflightAgreesWithCors(origin: Option<string>, allowed: seq<string>)
    ensures var r := Preflight(origin, allowed);
      && r.status == 204
      && (r.headers != [] <==> CorsCallback(origin, allowed))
      && (r.headers != [] && origin.Some? && origin.value != "" ==>
            r.headers[0] == ("Access-Control-Allow-Origin", origin.value))
      && (r.headers != [] && (origin.None? || origin == Some("")) ==> r.headers[0] == ("Access-Control-Allow-Origin", "*"))
  {
  }

  /** An origin is admitted exactly when it is absent or empty, listed, a
      `lesagedev…vercel.app` address over https, or a localhost or 127.0.0.1 address
      over http with a numeric port. */
  lemma CorsRule(origin: string, allowed: seq<string>)
    ensures CorsCallback(Some(origin), allowed) <==>
      || origin == ""
      || origin in allowed
      || Between(origin, VercelStart, VercelEnd)
      || PortAddress(origin, LocalhostStart)
      || PortAddress(origin, LoopbackStart)
  {
    FramedIff(origin, VercelStart, VercelEnd);
    WithPortIff(origin, LocalhostStart);
    WithPortIff(origin, LoopbackStart);
  }

  /** `start` followed by digits is matched by `WithPort`. */
  lemma WithPortOf(start: string, port: string)
    requires port != "" && forall k :: 0 <= k < |port| ==> IsDigit(port[k])
    ensures WithPort(start + port, start)
  {
    var s := start + port;
    assert s[..|start|] == start;
    forall k | |start| <= k < |s| ensures IsDigit(s[k]) {
      assert s[k] == port[k - |start|];
    }
  }

  /** A development front end on any localhost port is admitted whatever the list. */
  lemma LocalPortAdmitted(port: string, allowed: seq<string>)
    requires port != "" && forall k :: 0 <= k < |port| ==> IsDigit(port[k])
    ensures CorsCallback(Some(LocalhostStart + port), allowed)
    ensures CorsCallback(Some(LoopbackStart + port), allowed)
  {
    WithPortOf(LocalhostStart, port);
    WithPortOf(LoopbackStart, port);
  }

  /** With the default list, the default front end is admitted and an unrelated
      https site is not. */
  lemma DefaultListExamples()
    ensures CorsCallback(Some("http://localhost:3000"), AllowedOrigins(None))
    ensures !CorsCallback(Some("https://example.com"), AllowedOrigins(None))
  {
    var e := "https://example.com";
    assert e != DefaultOrigin by { assert e[4] != DefaultOrigin[4]; }
    assert !IsPrefix(VercelStart, e) by { assert e[8] != VercelStart[8]; }
    assert !IsPrefix(LocalhostStart, e) by { assert e[4] != LocalhostStart[4]; }
    assert !IsPrefix(LoopbackStart, e) by { assert e[4] != LoopbackStart[4]; }
  }

  /** A localhost address without a port is not matched by the pattern. */
  lemma PortRequired()
    ensures !WithPort(LocalhostStart, LocalhostStart)
  {
  }

  // ===========================================================================
  // The connection test

  const DefaultRetries := 5

  /** The wait after failed attempt `i` (counted from 0), in milliseconds:
      `Math.min(5000 * (i + 1), 15000)`. */
  function Backoff(i: nat): (ms: nat)
    ensures 5000 <= ms <= 15000
  {
    if 5000 * (i + 1) < 15000 then 5000 * (i + 1) else 15000
  }

  /** The back-off grows by 5 seconds per attempt and stays at 15 seconds from the
      third wait on. */
  lemma BackoffShape(i: nat, j: nat)
    ensures i <= j ==> Backoff(i) <= Backoff(j)
    ensures i >= 2 ==> Backoff(i) == 15000
    ensures i < 2 ==> Backoff(i) == 5000 * (i + 1)
  {
  }

  /** The waits after the first `n` attempts. */
  function Waits(n: nat): (r: seq<nat>)
    ensures |r| == n
    ensures forall k :: 0 <= k < n ==> r[k] == Backoff(k)
  {
    if n == 0 then [] else Waits(n - 1) + [Backoff(n - 1)]
  }

  function Sum(s: seq<nat>): nat
  {
    if |s| == 0 then 0 else Sum(s[..|s| - 1]) + s[|s| - 1]
  }

  /** `testConnection(retries)`: attempt `i` connects exactly when `connects(i)`. The
      method returns whether it connected, how many attempts it made and the waits in
      between; there is no wait after a success or after the last attempt. */
  method TestConnection(retries: int, connects: nat -> bool) returns (connected: bool, attempts: nat, waits: seq<nat>)
    ensures connected <==> exists i :: 0 <= i < retries && connects(i)
    ensures connected ==> 1 <= attempts <= retries && connects(attempts - 1)
    ensures forall i :: 0 <= i < attempts - 1 ==> !connects(i)
    ensures !connected ==> attempts == (if retries > 0 then retries else 0)
    ensures waits == Waits(if attempts == 0 then 0 else attempts - 1)
  {
    attempts := 0;
    waits := [];
    connected := false;
    var i := 0;
    while i < retries
      invariant 0 <= i <= (if retries > 0 then retries else 0)
      invariant attempts == i && !connected
      invariant forall j :: 0 <= j < i ==> !connects(j)
      invariant waits == Waits(if i == 0 then 0 else i - 1) + (if 0 < i < retries then [Backoff(i - 1)] else [])
      decreases retries - i
    {
      attempts := attempts + 1;
      if connects(i) {
        connected := true;
        return;
      }
      if i < retries - 1 {
        waits := waits + [Backoff(i)];
      }
      i := i + 1;
    }
  }

  /** With the default five attempts and none connecting, the test waits 5, 10, 15
      and 15 seconds: 45 seconds in all. */
  lemma DefaultTestWaits()
    ensures Waits(DefaultRetries - 1) == [5000, 10000, 15000, 15000]
    ensures Sum(Waits(DefaultRetries - 1)) == 45000
  {
    assert Waits(1) == [5000];
    assert Waits(2) == [5000, 10000];
    assert Waits(3) == [5000, 10000, 15000];
    var w := [5000, 10000, 15000, 15000];
    assert Waits(4) == w;
    assert w[..3][..2][..1][..0] == [];
    assert Sum(w[..3][..2][..1]) == 5000;
    assert Sum(w[..3][..2]) == 15000;
    assert Sum(w[..3]) == 30000;
  }

  /** No run of the test waits longer than 15 seconds per failed attempt. */
  lemma {:induction false} WaitBound(n: nat)
    ensures Sum(Waits(n)) <= 15000 * n
  {
    if n > 0 {
      WaitBound(n - 1);
      var w := Waits(n);
      assert w == Waits(n - 1) + [Backoff(n - 1)];
      assert w[..n - 1] == Waits(n - 1);
      assert Sum(w) == Sum(Waits(n - 1)) + Backoff(n - 1);
    }
  }

  // ===========================================================================
  // The global error handler

  /** The fields of a thrown error the handler reads. */
  datatype Error = Error(code: Value, status: Value, message: Value)

  /** The reply: its status, the `error` text, the `message` and `code` of the
      database replies, and whether the development details are added. */
  datatype ErrorReply = ErrorReply(status: Value, error: Value, message: Option<string>, code: Option<string>,
                                   details: bool)

  const Unavailable := "Service temporairement indisponible"

  /** The handler; `nodeEnv` is `NODE_ENV`, absent when it is not set. */
  function HandleError(err: Error, nodeEnv: Option<string>): ErrorReply
  {
    if err.code == Str("ETIMEDOUT") then
      ErrorReply(Num(503), Str(Unavailable), Some("La base de données ne répond pas"), Some("DB_TIMEOUT"), false)
    else if err.code == Str("ECONNREFUSED") then
      ErrorReply(Num(503), Str(Unavailable), Some("Impossible de se connecter à la base de données"),
                 Some("DB_CONNECTION_REFUSED"), false)
    else
      var message := if nodeEnv == Some("production") then Str("Erreur serveur interne") else err.message;
      ErrorReply(Or(err.status, Num(500)), message, None, None, nodeEnv == Some("development"))
  }

  /** A database timeout or refused connection answers 503 with its own code; any
      other error answers its own status, or 500 when it has none; in production its
      message is never shown, and the details come only in development. */
  lemma ErrorMapping(err: Error, nodeEnv: Option<string>)
    ensures var r := HandleError(err, nodeEnv);
      && (err.code == Str("ETIMEDOUT") ==> r.status == Num(503) && r.code == Some("DB_TIMEOUT"))
      && (err.code == Str("ECONNREFUSED") ==> r.status == Num(503) && r.code == Some("DB_CONNECTION_REFUSED"))
      && (r.code.Some? <==> err.code == Str("ETIMEDOUT") || err.code == Str("ECONNREFUSED"))
      && (r.code.None? && Truthy(err.status) ==> r.status == err.status)
      && (r.code.None? && !Truthy(err.status) ==> r.status == Num(500))
      && (r.code.None? && nodeEnv == Some("production") ==> r.error == Str("Erreur serveur interne"))
      && (r.details ==> nodeEnv == Some("development") && r.code.None?)
  {
  }

  /** A 503 comes only from the two database codes or from an error that carries 503
      itself. */
  lemma Only503FromDatabase(err: Error, nodeEnv: Option<string>)
    ensures HandleError(err, nodeEnv).status == Num(503) ==>
              err.code == Str("ETIMEDOUT") || err.code == Str("ECONNREFUSED") || err.status == Num(503)
  {
  }
}
