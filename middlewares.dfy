/**
 * The two request gates of the middleware pipeline: the Content-Type allow-list and the
 * firewall's Only/Except/Guard policy. A middleware is represented by the gate it
 * installs; regular-expression matching and the guard are parameters of the model.
 */
module Middlewares {

  /** The parts of a request the gates look at; header keys are canonical. */
  datatype Request = Request(httpMethod: string, path: string, header: map<string, string>)

  /** Header.Get: the value of key, or "" when the header is missing. */
  function HeaderGet(r: Request, key: string): string
  {
    if key in r.header then r.header[key] else ""
  }

  /** A compiled regular expression, identified by its source pattern. */
  datatype Regex = Regex(expr: string)

  /** Regexp.MatchString, whose semantics are not part of this model. */
  type Matcher = (Regex, string) -> bool

  /** Decides whether a request is authorized. */
  type Guard = Request -> bool

  /** What a gate does with a request: pass it to the handler it wraps, or answer with a status. */
  datatype Outcome = Forwarded | Rejected(status: int)

  const StatusUnsupportedMediaType: int := 415
  const StatusUnauthorized: int := 401

  datatype FirewallConfig = FirewallConfig(only: seq<string>, except: seq<string>, guard: Guard)

  /** A middleware, by the gate it wraps around a handler. */
  datatype Middleware =
    | ContentType(accepted: seq<string>)
    | Firewall(only: seq<Regex>, except: seq<Regex>, guard: Guard)

  /** Some accepted entry equals the request's Content-Type exactly. */
  predicate ContentTypeAccepted(accepted: seq<string>, r: Request)
  {
    exists i :: 0 <= i < |accepted| && accepted[i] == HeaderGet(r, "Content-Type")
  }

  /** Some pattern's match result on the path equals `want`. */
  predicate SomeSelects(patterns: seq<Regex>, path: string, matches: Matcher, want: bool)
  {
    exists i :: 0 <= i < |patterns| && matches(patterns[i], path) == want
  }

  /**
   * The firewall policy: with Only patterns, a request passes iff one matches its path
   * and the guard agrees; otherwise with Except patterns, iff one does NOT match its
   * path and the guard agrees; with neither, every request passes.
   */
  predicate FirewallAllows(only: seq<Regex>, except: seq<Regex>, guard: Guard, r: Request, matches: Matcher)
    ensures FirewallAllows(only, except, guard, r, matches) && (|only| > 0 || |except| > 0) ==> guard(r)
    ensures |only| > 0 && !SomeSelects(only, r.path, matches, true) ==> !FirewallAllows(only, except, guard, r, matches)
    ensures |only| == 0 && |except| > 0 && !SomeSelects(except, r.path, matches, false) ==>
      !FirewallAllows(only, except, guard, r, matches)
  {
    if |only| > 0 then SomeSelects(only, r.path, matches, true) && guard(r)
    else if |except| > 0 then SomeSelects(except, r.path, matches, false) && guard(r)
    else true
  }

  /** Number of patterns whose match result on the path equals `want`. */
  function CountSelecting(patterns: seq<Regex>, path: string, matches: Matcher, want: bool): (n: nat)
    ensures n <= |patterns|
    ensures n > 0 <==> SomeSelects(patterns, path, matches, want)
  {
    if patterns == [] then 0
    else
      var n := (if matches(patterns[0], path) == want then 1 else 0)
               + CountSelecting(patterns[1..], path, matches, want);
      assert forall i :: 1 <= i < |patterns| ==> patterns[i] == patterns[1..][i - 1];
      n
  }

  /** The outcome a middleware's gate gives a request. */
  function Gate(mw: Middleware, r: Request, matches: Matcher): (o: Outcome)
    ensures o != Forwarded ==> o == Rejected(if mw.ContentType? then StatusUnsupportedMediaType else StatusUnauthorized)
    ensures mw.ContentType? && mw.accepted == [] ==> o == Rejected(StatusUnsupportedMediaType)
    ensures mw.Firewall? && mw.only == [] && mw.except == [] ==> o == Forwarded
  {
    match mw
    case ContentType(accepted) =>
      if ContentTypeAccepted(accepted, r) then Forwarded else Rejected(StatusUnsupportedMediaType)
    case Firewall(only, except, guard) =>
      if FirewallAllows(only, except, guard, r, matches) then Forwarded else Rejected(StatusUnauthorized)
  }

  /**
   * contentType.ServeHTTP: scans the accepted list and forwards on the first exact match;
   * after the scan, answers 415 without forwarding.
   */
  method ServeContentType(accepted: seq<string>, r: Request) returns (o: Outcome)
    ensures o == Forwarded <==> ContentTypeAccepted(accepted, r)
    ensures o != Forwarded ==> o == Rejected(StatusUnsupportedMediaType)
  {
    var ct := HeaderGet(r, "Content-Type");
    for i := 0 to |accepted|
      invariant forall j :: 0 <= j < i ==> accepted[j] != ct
    {
      if accepted[i] == ct {
        return Forwarded;
      }
    }
    return Rejected(StatusUnsupportedMediaType);
  }

  /**
   * The scan both branches of firewall.ServeHTTP perform: consult the guard for each
   * pattern whose match result on the path is `want`, and stop at the first yes.
   */
  method ScanWithGuard(patterns: seq<Regex>, want: bool, guard: Guard, r: Request, matches: Matcher)
    returns (authenticated: bool, guardCalls: nat)
    ensures authenticated <==> SomeSelects(patterns, r.path, matches, want) && guard(r)
    ensures guardCalls == if authenticated then 1 else CountSelecting(patterns, r.path, matches, want)
  {
    authenticated := false;
    guardCalls := 0;
    var i := 0;
    while i < |patterns|
      invariant 0 <= i <= |patterns|
      invariant authenticated ==> guard(r) && SomeSelects(patterns, r.path, matches, want) && guardCalls == 1
      invariant !authenticated ==> guardCalls == CountSelecting(patterns[..i], r.path, matches, want)
      invariant !authenticated ==> !guard(r) || !SomeSelects(patterns[..i], r.path, matches, want)
    {
      if matches(patterns[i], r.path) == want {
        authenticated := guard(r);
        guardCalls := guardCalls + 1;
        if authenticated {
          break;
        }
      }
      CountSelectingSnoc(patterns[..i], patterns[i], r.path, matches, want);
      assert patterns[..i + 1] == patterns[..i] + [patterns[i]];
      i := i + 1;
    }
    assert !authenticated ==> patterns[..i] == patterns;
  }

  /**
   * firewall.ServeHTTP. `guardCalls` counts how often the guard is consulted: only for
   * patterns that select the path, and never again once it said yes. The Except list
   * is not looked at when the Only list is non-empty.
   */
  method ServeFirewall(only: seq<Regex>, except: seq<Regex>, guard: Guard, r: Request, matches: Matcher)
    returns (o: Outcome, guardCalls: nat)
    ensures o == Forwarded <==> FirewallAllows(only, except, guard, r, matches)
    ensures o != Forwarded ==> o == Rejected(StatusUnauthorized)
    ensures |only| == 0 && |except| == 0 ==> guardCalls == 0
    ensures |only| > 0 ==>
      guardCalls == if o == Forwarded then 1 else CountSelecting(only, r.path, matches, true)
    ensures |only| == 0 && |except| > 0 ==>
      guardCalls == if o == Forwarded then 1 else CountSelecting(except, r.path, matches, false)
  {
    var authenticated := false;
    guardCalls := 0;
    if |only| > 0 {
      authenticated, guardCalls := ScanWithGuard(only, true, guard, r, matches);
      if !authenticated {
        return Rejected(StatusUnauthorized), guardCalls;
      }
    } else if |except| > 0 {
      authenticated, guardCalls := ScanWithGuard(except, false, guard, r, matches);
      if !authenticated {
        return Rejected(StatusUnauthorized), guardCalls;
      }
    }
    o := Forwarded;
  }

  lemma {:induction false} CountSelectingSnoc(patterns: seq<Regex>, p: Regex, path: string, matches: Matcher, want: bool)
    ensures CountSelecting(patterns + [p], path, matches, want) ==
      CountSelecting(patterns, path, matches, want) + (if matches(p, path) == want then 1 else 0)
  {
    if patterns != [] {
      assert (patterns + [p])[1..] == patterns[1..] + [p];
      CountSelectingSnoc(patterns[1..], p, path, matches, want);
    }
  }

  /** regexp.MustCompile; its parsing (and its panic on a malformed pattern) is not modelled. */
  function Compile(pattern: string): Regex
  {
    Regex(pattern)
  }

  /** firewallCompileSlice: one compiled pattern per input pattern, in the same order. */
  method CompileSlice(patterns: seq<string>) returns (compiled: array<Regex>)
    ensures fresh(compiled)
    ensures compiled.Length == |patterns|
    ensures forall i :: 0 <= i < |patterns| ==> compiled[i] == Compile(patterns[i])
  {
    compiled := new Regex[|patterns|](_ => Regex(""));
    for i := 0 to |patterns|
      invariant forall j :: 0 <= j < i ==> compiled[j] == Compile(patterns[j])
    {
      compiled[i] := Compile(patterns[i]);
    }
  }

  /** ContentTypeMiddleware: a gate that forwards exactly the requests whose Content-Type is accepted. */
  function ContentTypeMiddleware(accepted: seq<string>): (mw: Middleware)
    ensures forall r: Request, matches: Matcher ::
      Gate(mw, r, matches) == (if HeaderGet(r, "Content-Type") in accepted then Forwarded else Rejected(415))
  {
    ContentType(accepted)
  }

  /**
   * FirewallMiddleware: compiles both pattern lists once and builds the gate; its
   * decisions follow the policy over the configured patterns.
   */
  method FirewallMiddleware(config: FirewallConfig) returns (mw: Middleware)
    ensures mw.Firewall? && |mw.only| == |config.only| && |mw.except| == |config.except|
    ensures forall i :: 0 <= i < |config.only| ==> mw.only[i] == Compile(config.only[i])
    ensures forall i :: 0 <= i < |config.except| ==> mw.except[i] == Compile(config.except[i])
    ensures forall r: Request, matches: Matcher ::
      Gate(mw, r, matches) == if FirewallAllows(mw.only, mw.except, config.guard, r, matches)
                             then Forwarded else Rejected(401)
  {
    var onlyCompiled := CompileSlice(config.only);
    var exceptCompiled := CompileSlice(config.except);
    mw := Firewall(onlyCompiled[..], exceptCompiled[..], config.guard);
  }

  /**
   * A missing Content-Type reads as "", so it passes only if "" is accepted; an empty
   * accepted list refuses every request.
   */
  lemma ContentTypeCorners(accepted: seq<string>, r: Request, matches: Matcher)
    ensures "Content-Type" !in r.header ==>
      (Gate(ContentType(accepted), r, matches) == Forwarded <==> "" in accepted)
    ensures accepted == [] ==> Gate(ContentType(accepted), r, matches) == Rejected(StatusUnsupportedMediaType)
  {
  }

  /**
   * Firewall corner cases: with Only patterns, a path no pattern matches is refused
   * whatever the guard says, and the Except list plays no part; with only Except
   * patterns, a path every pattern matches is refused; with neither, every request passes.
   */
  lemma FirewallCorners(only: seq<Regex>, except: seq<Regex>, except': seq<Regex>, guard: Guard, r: Request, matches: Matcher)
    ensures |only| > 0 && (forall i :: 0 <= i < |only| ==> !matches(only[i], r.path)) ==>
      Gate(Firewall(only, except, guard), r, matches) == Rejected(StatusUnauthorized)
    ensures |only| > 0 ==>
      Gate(Firewall(only, except, guard), r, matches) == Gate(Firewall(only, except', guard), r, matches)
    ensures |only| == 0 && |except| > 0 && (forall i :: 0 <= i < |except| ==> matches(except[i], r.path)) ==>
      Gate(Firewall(only, except, guard), r, matches) == Rejected(StatusUnauthorized)
    ensures |only| == 0 && |except| == 0 ==> Gate(Firewall(only, except, guard), r, matches) == Forwarded
  {
  }

  /**
   * The server's firewall (Only "^/shows", a guard that always agrees): a path the
   * pattern does not match is refused with 401, one it matches is let through.
   */
  method ServerFirewallScenario(r: Request, matches: Matcher) returns (o: Outcome)
    ensures !matches(Regex("^/shows"), r.path) ==> o == Rejected(StatusUnauthorized)
    ensures matches(Regex("^/shows"), r.path) ==> o == Forwarded
  {
    var basicAuth: Guard := _ => true;
    var mw := FirewallMiddleware(FirewallConfig(["^/shows"], [], basicAuth));
    assert mw.only == [Regex("^/shows")] && basicAuth(r);
    if matches(Regex("^/shows"), r.path) {
      assert SomeSelects(mw.only, r.path, matches, true) by {
        assert matches(mw.only[0], r.path);
      }
    }
    o := Gate(mw, r, matches);
  }
}
