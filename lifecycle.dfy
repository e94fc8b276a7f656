/**
 Clients of the middleware that go through its whole life in the order the host drives it: parse the
 configuration, provision the module (Provision runs before Validate), validate it, then serve
 requests. What they prove follows from the contracts of module Handler and from
 ParserProperties.WildcardAgentTypes.
 */
module Lifecycle {
  import opened Wrappers
  import Agents
  import Caddyfile
  import ParserProperties
  import opened Handler

  /** `access_token <token>` and `robots_txt { agent_types * ; disallow / }`. */
  function WildcardDirective(token: string): Caddyfile.Directive {
    Caddyfile.Directive(
      [Caddyfile.Entry(Caddyfile.AccessTokenKey, [token], []),
       Caddyfile.Entry(Caddyfile.RobotsTxtKey, [],
         [Caddyfile.Line(Caddyfile.AgentTypesKey, [Caddyfile.Wildcard]),
          Caddyfile.Line(Caddyfile.DisallowKey, [DefaultDisallow])])],
      [])
  }

  /** A next handler that succeeds and leaves the request and its variables as it found them. */
  function PassThrough(r: Request, vars: Vars): NextResult {
    NextResult(r, vars, None)
  }

  /**
   The knownagents variant with the wildcard configuration: parsing succeeds, provisioning fetches
   `body` and succeeds, validation then succeeds, and the next request's handler sees exactly that body
   in `ka_robots_txt`; the request is reported once.
   */
  method KnownAgentsWildcard(token: string, body: string, r: Request)
    returns (parseErr: Option<Caddyfile.ParseError>, validateErr: Option<Agents.ValidationError>,
             provisionErr: Option<string>, varsOut: Vars, report: Option<OutboundRequest>)
    requires token != ""
    ensures parseErr == None && validateErr == None && provisionErr == None
    ensures varsOut == map["ka_robots_txt" := body]
    ensures report.Some? && report.value.body.Visit? && report.value.body.event.requestPath == r.path
  {
    var m := new Middleware(KnownAgents);
    ParserProperties.WildcardAgentTypes(token, DefaultDisallow, []);
    parseErr := m.UnmarshalCaddyfile(WildcardDirective(token));
    var detached;
    provisionErr, detached := m.Provision(Fetched(body));
    validateErr := m.Validate();
    var err;
    varsOut, report, err := m.ServeHTTP(r, map[], PassThrough);
  }

  /**
   The same configuration in the knownagents variant when the fetch fails: provisioning fails with the
   fetch's error, so the host never serves with this module.
   */
  method KnownAgentsFetchFails(token: string, reason: string)
    returns (provisionErr: Option<string>)
    requires token != ""
    ensures provisionErr == Some(reason)
  {
    var m := new Middleware(KnownAgents);
    ParserProperties.WildcardAgentTypes(token, DefaultDisallow, []);
    var parseErr := m.UnmarshalCaddyfile(WildcardDirective(token));
    var detached;
    provisionErr, detached := m.Provision(FetchFailed(reason));
  }

  /**
   The darkvisitors variant: provisioning succeeds at once and only starts the fetch, so a request
   served before the fetch completes sees an empty `dv_robots_txt`; once the detached fetch has stored
   `body`, later requests see the body; a failed fetch would have left the text empty.
   */
  method DarkVisitorsWildcard(token: string, outcome: FetchOutcome, r: Request)
    returns (provisionErr: Option<string>, early: Vars, late: Vars)
    requires token != ""
    ensures provisionErr == None
    ensures early == map["dv_robots_txt" := ""]
    ensures late == map["dv_robots_txt" := if outcome.Fetched? then outcome.body else ""]
  {
    var m := new Middleware(DarkVisitors);
    ParserProperties.WildcardAgentTypes(token, DefaultDisallow, []);
    var parseErr := m.UnmarshalCaddyfile(WildcardDirective(token));
    var detached;
    provisionErr, detached := m.Provision(outcome);
    var report, err;
    early, report, err := m.ServeHTTP(r, map[], PassThrough);
    var query, fetchErr := m.FetchRobotsTxt(outcome);
    late, report, err := m.ServeHTTP(r, map[], PassThrough);
  }

  /**
   A next handler that rewrites the request's path in place: the visit is reported with the rewritten
   path, because the report is built from the request after the next handler has run.
   */
  method ReportsRewrittenPath(token: string, r: Request, rewritten: string)
    returns (report: Option<OutboundRequest>)
    requires token != ""
    ensures report.Some? && report.value.body.Visit? && report.value.body.event.requestPath == rewritten
    ensures report.value.body.event.requestMethod == r.verb
  {
    var m := new Middleware(KnownAgents);
    var parseErr := m.UnmarshalCaddyfile(Caddyfile.Directive([Caddyfile.Entry(Caddyfile.AccessTokenKey, [token], [])], []));
    var varsOut, err;
    varsOut, report, err := m.ServeHTTP(r, map[], (q: Request, v: Vars) => NextResult(q.(path := rewritten), v, None));
  }
}
