/**
 The middleware itself: its parsed configuration, the robots.txt text it caches at provisioning,
 and what it does with each request. Both published variants share this model; they differ in the
 names and endpoints of `Variant` and in whether provisioning waits for the robots.txt fetch.

 The network is an oracle: a fetch is given its outcome as a parameter, and a visit report is
 returned as the request that would be sent. The next handler of the chain is a function of the
 request and the request variables it is handed.
 */
module Handler {
  import opened Wrappers
  import Agents
  import Caddyfile

  /** The two near-identical published modules. */
  datatype Variant = KnownAgents | DarkVisitors {

    /** The request variable that carries the cached robots.txt text to downstream handlers. */
    function RobotsTxtVar(): string {
      if KnownAgents? then "ka_robots_txt" else "dv_robots_txt"
    }

    function AnalyticsEndpoint(): string {
      if KnownAgents? then "https://api.knownagents.com/visits" else "https://api.darkvisitors.com/visits"
    }

    function RobotsTxtEndpoint(): string {
      if KnownAgents? then "https://api.knownagents.com/robots-txts" else "https://api.darkvisitors.com/robots-txts"
    }
  }

  /** Request headers, keyed by canonical header name. */
  type Header = map<string, seq<string>>

  /** The request-scoped variables handlers hand down the chain. */
  type Vars = map<string, string>

  /** An inbound request: its URL path, its method (`verb`) and its headers. */
  datatype Request = Request(path: string, verb: string, header: Header)

  /** What the analytics endpoint is told about one request. */
  datatype VisitEvent = VisitEvent(requestPath: string, requestMethod: string, requestHeaders: Header)

  /** The body of an outbound request, before it is encoded as JSON. */
  datatype Payload =
    | RobotsQuery(agentTypes: seq<Agents.AgentType>, disallow: string)
    | Visit(event: VisitEvent)

  /** An outbound POST: its URL, its Authorization and Content-Type headers, and its body. */
  datatype OutboundRequest = Post(url: string, authorization: string, contentType: string, body: Payload)

  /** What the robots.txt fetch gets back: the whole response body, or the error that ended the attempt. */
  datatype FetchOutcome = Fetched(body: string) | FetchFailed(reason: string)

  /**
   What the next handler leaves behind: the request as it stands afterwards (handlers share one request
   object and may rewrite its path, method or headers), the request variables, and its error, if any.
   */
  datatype NextResult = NextResult(request: Request, vars: Vars, err: Option<string>)

  const CookieHeader := "Cookie"
  const JsonContentType := "application/json"
  const DefaultDisallow := "/"

  function Bearer(token: string): string {
    "Bearer " + token
  }

  /** The robots.txt policy the parser allocates and fills in, and the text provisioning caches in it. */
  class RobotsTxt {
    var agentTypes: seq<Agents.AgentType>
    var disallow: string
    var text: string

    /** `new(RobotsTxt)`: every field empty. */
    constructor ()
      ensures agentTypes == [] && disallow == "" && text == ""
    {
      agentTypes, disallow, text := [], "", "";
    }

    /** The configured part of the policy, as the parser's specification sees it. */
    function Policy(): Caddyfile.RobotsPolicy
      reads this
    {
      Caddyfile.RobotsPolicy(agentTypes, disallow)
    }

    /** One line of the robots_txt block, applied to this policy in place. */
    method UnmarshalLine(l: Caddyfile.Line) returns (err: Option<Caddyfile.ParseError>)
      modifies this
      ensures text == old(text)
      ensures err == Caddyfile.RobotsLine(old(Policy()), l).ErrorOf()
      ensures err.None? ==> Policy() == Caddyfile.RobotsLine(old(Policy()), l).value
    {
      if l.key == Caddyfile.AgentTypesKey {
        if |l.args| == 0 {
          return Some(Caddyfile.ArgErr);
        }
        if l.args[0] == Caddyfile.Wildcard {
          agentTypes := Agents.Catalog;
          if |l.args| > 1 {
            return Some(Caddyfile.UnexpectedArgument(l.args[1]));
          }
        } else {
          agentTypes := agentTypes + [l.args[0]];
          var k := 1;
          while k < |l.args|
            invariant 1 <= k <= |l.args|
            invariant agentTypes == old(agentTypes) + l.args[..k]
            invariant disallow == old(disallow) && text == old(text)
          {
            agentTypes := agentTypes + [l.args[k]];
            k := k + 1;
          }
          assert l.args[..k] == l.args;
        }
      } else if l.key == Caddyfile.DisallowKey {
        if |l.args| == 0 {
          return Some(Caddyfile.ArgErr);
        }
        disallow := l.args[0];
      } else {
        return Some(Caddyfile.UnknownSubdirective(l.key));
      }
      return None;
    }

    /** The lines of the robots_txt block, in order, stopping at the first error. */
    method UnmarshalBlock(lines: seq<Caddyfile.Line>) returns (err: Option<Caddyfile.ParseError>)
      modifies this
      ensures text == old(text)
      ensures err == Caddyfile.RobotsBlock(old(Policy()), lines).ErrorOf()
      ensures err.None? ==> Policy() == Caddyfile.RobotsBlock(old(Policy()), lines).value
    {
      var j := 0;
      while j < |lines|
        invariant 0 <= j <= |lines|
        invariant text == old(text)
        invariant Caddyfile.RobotsBlock(old(Policy()), lines) == Caddyfile.RobotsBlock(Policy(), lines[j..])
      {
        assert lines[j..][0] == lines[j] && lines[j..][1..] == lines[j + 1..];
        err := UnmarshalLine(lines[j]);
        if err.Some? {
          return;
        }
        j := j + 1;
      }
      return None;
    }
  }

  /** The middleware module: its access token and, when configured, its robots.txt policy. */
  class Middleware {
    const variant: Variant
    var accessToken: string
    var robotsTxt: RobotsTxt?

    /** The zero value the host allocates before parsing the configuration. */
    constructor (variant: Variant)
      ensures this.variant == variant && accessToken == "" && robotsTxt == null
    {
      this.variant := variant;
      accessToken := "";
      robotsTxt := null;
    }

    /** The configuration these fields hold, as the parser's specification sees it. */
    function Settings(): Caddyfile.Settings
      reads this, robotsTxt
    {
      Caddyfile.Settings(accessToken, if robotsTxt == null then None else Some(robotsTxt.Policy()))
    }

    /**
     UnmarshalCaddyfile: the directive's block, entry by entry, then the post-parse checks. It reports
     exactly the specification's error and, on success, leaves exactly the specification's settings;
     a policy it creates is a new object with no cached text.
     */
    method UnmarshalCaddyfile(d: Caddyfile.Directive) returns (err: Option<Caddyfile.ParseError>)
      modifies this
      ensures old(robotsTxt) != null ==> robotsTxt == old(robotsTxt)
      ensures robotsTxt != null && old(robotsTxt) == null ==> fresh(robotsTxt) && robotsTxt.text == ""
      ensures err == Caddyfile.Unmarshal(old(Settings()), d).ErrorOf()
      ensures err.None? ==> Settings() == Caddyfile.Unmarshal(old(Settings()), d).value
    {
      var i := 0;
      while i < |d.entries|
        invariant 0 <= i <= |d.entries|
        invariant old(robotsTxt) != null ==> robotsTxt == old(robotsTxt)
        invariant robotsTxt != null && old(robotsTxt) == null ==> fresh(robotsTxt) && robotsTxt.text == ""
        invariant old(robotsTxt) != null ==> old(robotsTxt).Policy() == old(robotsTxt.Policy())
        invariant Caddyfile.Entries(old(Settings()), d.entries) == Caddyfile.Entries(Settings(), d.entries[i..])
      {
        var e := d.entries[i];
        assert d.entries[i..][0] == e && d.entries[i..][1..] == d.entries[i + 1..];
        if e.key == Caddyfile.RobotsTxtKey {
          if robotsTxt != null {
            return Some(Caddyfile.AlreadyConfigured);
          }
          robotsTxt := new RobotsTxt();
          err := robotsTxt.UnmarshalBlock(e.block);
          if err.Some? {
            return;
          }
        } else if e.key == Caddyfile.AccessTokenKey {
          if |e.args| == 0 {
            return Some(Caddyfile.ArgErr);
          }
          accessToken := e.args[0];
        } else {
          return Some(Caddyfile.UnrecognizedSubdirective(e.key));
        }
        i := i + 1;
      }
      if |d.trailing| > 0 {
        return Some(Caddyfile.UnexpectedArgument(d.trailing[0]));
      }
      if accessToken == "" {
        return Some(Caddyfile.MissingAccessToken);
      }
      if robotsTxt != null && |robotsTxt.agentTypes| == 0 {
        return Some(Caddyfile.MissingAgentTypeFilters);
      }
      return None;
    }

    /**
     Validate: without a policy there is nothing to check; with one, every agent type must be in the
     catalog, and the error names the first one (in list order) that is not.
     */
    method Validate() returns (err: Option<Agents.ValidationError>)
      ensures robotsTxt == null ==> err == None
      ensures robotsTxt != null ==>
                err == match Agents.FirstUnrecognized(robotsTxt.agentTypes)
                       case None => None
                       case Some(i) => Some(Agents.UnrecognizedAgentType(robotsTxt.agentTypes[i]))
    {
      if robotsTxt != null {
        var ats := robotsTxt.agentTypes;
        var i := 0;
        while i < |ats|
          invariant 0 <= i <= |ats|
          invariant forall j :: 0 <= j < i ==> Agents.Known(ats[j])
        {
          if !Agents.Known(ats[i]) {
            return Some(Agents.UnrecognizedAgentType(ats[i]));
          }
          i := i + 1;
        }
      }
      return None;
    }

    /**
     FetchRobotsTxt: asks the generation endpoint for a robots.txt built from the policy, authorised by
     the access token, and caches the response body verbatim. When the attempt fails the cached text is
     left as it was; the knownagents variant returns the error, the darkvisitors variant only logs it.
     */
    method FetchRobotsTxt(response: FetchOutcome) returns (query: OutboundRequest, err: Option<string>)
      requires robotsTxt != null
      modifies robotsTxt
      ensures query == Post(variant.RobotsTxtEndpoint(), Bearer(accessToken), JsonContentType,
                            RobotsQuery(robotsTxt.agentTypes, robotsTxt.disallow))
      ensures robotsTxt.agentTypes == old(robotsTxt.agentTypes) && robotsTxt.disallow == old(robotsTxt.disallow)
      ensures robotsTxt.text == if response.Fetched? then response.body else old(robotsTxt.text)
      ensures err == if response.FetchFailed? && variant.KnownAgents? then Some(response.reason) else None
    {
      query := Post(variant.RobotsTxtEndpoint(), Bearer(accessToken), JsonContentType,
                    RobotsQuery(robotsTxt.agentTypes, robotsTxt.disallow));
      match response
      case FetchFailed(reason) =>
        err := if variant.KnownAgents? then Some(reason) else None;
      case Fetched(body) =>
        robotsTxt.text := body;
        err := None;
    }

    /**
     Provision: with no policy it does nothing; with one it defaults an empty disallow path to "/" and
     starts the fetch. The knownagents variant waits for the fetch (`response` is its outcome) and fails
     when it fails. The darkvisitors variant runs the fetch detached and always succeeds: `detached`
     says a fetch was started, whose effect is a later FetchRobotsTxt, so the cached text is unchanged here.
     */
    method Provision(response: FetchOutcome) returns (err: Option<string>, detached: bool)
      modifies robotsTxt
      ensures robotsTxt == null ==> err == None && !detached
      ensures robotsTxt != null ==> robotsTxt.agentTypes == old(robotsTxt.agentTypes)
      ensures robotsTxt != null ==>
                robotsTxt.disallow == if old(robotsTxt.disallow) == "" then DefaultDisallow else old(robotsTxt.disallow)
      ensures robotsTxt != null && variant.KnownAgents? ==>
                && !detached
                && robotsTxt.text == (if response.Fetched? then response.body else old(robotsTxt.text))
                && err == (if response.FetchFailed? then Some(response.reason) else None)
      ensures variant.DarkVisitors? ==>
                err == None && detached == (robotsTxt != null) && (robotsTxt != null ==> robotsTxt.text == old(robotsTxt.text))
    {
      err, detached := None, false;
      if robotsTxt != null {
        if robotsTxt.disallow == "" {
          robotsTxt.disallow := DefaultDisallow;
        }
        if variant.KnownAgents? {
          var _, fetchErr := FetchRobotsTxt(response);
          err := fetchErr;
        } else {
          detached := true;
        }
      }
    }

    /**
     The request variables the next handler is handed: those of the request, with the cached robots.txt
     text under the variant's name when a policy is configured.
     */
    function RequestVars(vars: Vars): (seen: Vars)
      reads this, robotsTxt
      ensures robotsTxt == null ==> seen == vars
      ensures robotsTxt != null ==>
                && seen.Keys == vars.Keys + {variant.RobotsTxtVar()}
                && seen[variant.RobotsTxtVar()] == robotsTxt.text
                && forall k :: k in vars && k != variant.RobotsTxtVar() ==> seen[k] == vars[k]
    {
      if robotsTxt != null then vars[variant.RobotsTxtVar() := robotsTxt.text] else vars
    }

    /**
     ServeHTTP: publishes the cached robots.txt text in the variant's request variable (only when a
     policy is configured) before calling the next handler, and returns that handler's error unchanged.
     When the next handler succeeds it reports exactly one visit: the path and method of the request as
     the next handler left it and a copy of its headers without the Cookie header, posted to the
     analytics endpoint with the access token. It changes no state of the middleware.
     */
    method ServeHTTP(r: Request, vars: Vars, next: (Request, Vars) -> NextResult)
      returns (varsOut: Vars, report: Option<OutboundRequest>, err: Option<string>)
      ensures varsOut == next(r, RequestVars(vars)).vars && err == next(r, RequestVars(vars)).err
      ensures report.Some? <==> err.None?
      ensures report.Some? ==>
                var left := next(r, RequestVars(vars)).request;
                && report.value.url == variant.AnalyticsEndpoint()
                && report.value.authorization == Bearer(accessToken)
                && report.value.contentType == JsonContentType
                && report.value.body.Visit?
                && report.value.body.event.requestPath == left.path
                && report.value.body.event.requestMethod == left.verb
      ensures report.Some? ==>
                var left := next(r, RequestVars(vars)).request;
                var sent := report.value.body.event.requestHeaders;
                && sent.Keys == left.header.Keys - {CookieHeader}
                && forall k :: k in sent ==> sent[k] == left.header[k]
    {
      var seen := vars;
      if robotsTxt != null {
        seen := seen[variant.RobotsTxtVar() := robotsTxt.text];
      }
      var result := next(r, seen);
      if result.err.Some? {
        return result.vars, None, result.err;
      }
      var left := result.request;
      var sanitized := left.header;
      sanitized := sanitized - {CookieHeader};
      var event := VisitEvent(left.path, left.verb, sanitized);
      report := Some(Post(variant.AnalyticsEndpoint(), Bearer(accessToken), JsonContentType, Visit(event)));
      return result.vars, report, None;
    }
  }
}
