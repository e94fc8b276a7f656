/**
 The meaning of the middleware's configuration block, as pure functions over an abstract view of the
 tokens: the directive's block is a sequence of entries `key args... { lines }`, a `robots_txt`
 entry's nested block is a sequence of lines `key args...`, and whatever arguments are left after
 the block are `trailing`. The Caddyfile lexer and its cursor are not modelled.

 Each function is one step of UnmarshalCaddyfile (both variants share it); the imperative
 parser in module Handler is proved to compute exactly these.
 */
module Caddyfile {
  import opened Wrappers
  import Agents

  const RobotsTxtKey := "robots_txt"
  const AccessTokenKey := "access_token"
  const AgentTypesKey := "agent_types"
  const DisallowKey := "disallow"
  const Wildcard := "*"

  /** One line of a `robots_txt` block. */
  datatype Line = Line(key: string, args: seq<string>)

  /** One line of the directive's block, with the lines of its nested block ([] when it has none). */
  datatype Entry = Entry(key: string, args: seq<string>, block: seq<Line>)

  /** The directive: the lines of its block, and the arguments the parser finds after the block. */
  datatype Directive = Directive(entries: seq<Entry>, trailing: seq<string>)

  /** The errors UnmarshalCaddyfile reports; a token-carrying error names the offending token. */
  datatype ParseError =
    | AlreadyConfigured                        // "robots_txt is already configured"
    | UnknownSubdirective(token: string)       // "unknown subdirective '<token>'", inside robots_txt
    | UnrecognizedSubdirective(token: string)  // "unrecognized subdirective '<token>'", top level
    | ArgErr                                   // the Dispenser's wrong-argument-count error
    | UnexpectedArgument(token: string)        // "unexpected argument '<token>'"
    | MissingAccessToken                       // "missing access token"
    | MissingAgentTypeFilters                  // "missing agent type filters"

  /** The configured robots.txt policy: the agent types to block and the path to disallow. */
  datatype RobotsPolicy = RobotsPolicy(agentTypes: seq<Agents.AgentType>, disallow: string)

  /** The module's configuration: the access token and the optional robots.txt policy (nil pointer = None). */
  datatype Settings = Settings(accessToken: string, robotsTxt: Option<RobotsPolicy>)

  /** The zero value the host hands to UnmarshalCaddyfile. */
  const Unconfigured := Settings("", None)

  /** A freshly allocated policy, as `new(RobotsTxt)` gives it. */
  const EmptyPolicy := RobotsPolicy([], "")

  // ---------------------------------------------------------------------------------------------
  // The parser, one step at a time

  /**
   `agent_types args...`: a leading `*` replaces the list by the catalog, anything else is appended.
   It is accepted exactly when it has an argument and a leading `*` stands alone; it never leaves the
   list empty, and starting with a label keeps the labels already listed, in front.
   */
  function AgentTypesLine(p: RobotsPolicy, args: seq<string>): (r: Result<RobotsPolicy, ParseError>)
    ensures r.Success? <==> |args| > 0 && (args[0] == Wildcard ==> |args| == 1)
    ensures |args| == 0 ==> r == Failure(ArgErr)
    ensures r.Failure? && |args| > 0 ==> r.error == UnexpectedArgument(args[1])
    ensures r.Success? ==> r.value.disallow == p.disallow && |r.value.agentTypes| > 0
    ensures r.Success? && args[0] != Wildcard ==> p.agentTypes <= r.value.agentTypes
  {
    if |args| == 0 then Failure(ArgErr)
    else if args[0] == Wildcard then
      if |args| > 1 then Failure(UnexpectedArgument(args[1]))
      else Success(p.(agentTypes := Agents.Catalog))
    else Success(p.(agentTypes := p.agentTypes + args))
  }

  /**
   One line of a `robots_txt` block: accepted exactly when LineOk says so, a rejected one gives
   LineError, and an accepted one touches only the field its key names.
   */
  function RobotsLine(p: RobotsPolicy, l: Line): (r: Result<RobotsPolicy, ParseError>)
    ensures r.Success? <==> LineOk(l)
    ensures r.Failure? ==> !LineOk(l) && r.error == LineError(l)
    ensures r.Success? && l.key != AgentTypesKey ==> r.value.agentTypes == p.agentTypes
    ensures r.Success? && l.key != DisallowKey ==> r.value.disallow == p.disallow
  {
    if l.key == AgentTypesKey then AgentTypesLine(p, l.args)
    else if l.key == DisallowKey then
      if |l.args| == 0 then Failure(ArgErr) else Success(p.(disallow := l.args[0]))
    else Failure(UnknownSubdirective(l.key))
  }

  /**
   The lines of a `robots_txt` block, in order; the first failing line stops the parse. A parsed block
   ends with no agent types exactly when it started with none and has no agent_types line.
   */
  function RobotsBlock(p: RobotsPolicy, ls: seq<Line>): (r: Result<RobotsPolicy, ParseError>)
    ensures r.Success? ==>
              (|r.value.agentTypes| == 0 <==>
                 |p.agentTypes| == 0 && forall i :: 0 <= i < |ls| ==> ls[i].key != AgentTypesKey)
    decreases ls
  {
    if |ls| == 0 then Success(p)
    else
      match RobotsLine(p, ls[0])
      case Failure(e) => Failure(e)
      case Success(p') =>
        assert forall i :: 1 <= i < |ls| ==> ls[i] == ls[1..][i - 1];
        RobotsBlock(p', ls[1..])
  }

  /**
   One line of the directive's block: accepted exactly when EntryOk says so and it is not a second
   robots_txt; an accepted one touches only the field its key names.
   */
  function DirectiveEntry(s: Settings, e: Entry): (r: Result<Settings, ParseError>)
    ensures r.Success? <==> EntryOk(e) && (e.key == RobotsTxtKey ==> s.robotsTxt.None?)
    ensures e.key == RobotsTxtKey && s.robotsTxt.Some? ==> r == Failure(AlreadyConfigured)
    ensures r.Success? && e.key != AccessTokenKey ==> r.value.accessToken == s.accessToken
    ensures r.Success? && e.key != RobotsTxtKey ==> r.value.robotsTxt == s.robotsTxt
  {
    if e.key == RobotsTxtKey then
      if s.robotsTxt.Some? then Failure(AlreadyConfigured)
      else
        match RobotsBlock(EmptyPolicy, e.block)
        case Failure(err) => Failure(err)
        case Success(p) => Success(s.(robotsTxt := Some(p)))
    else if e.key == AccessTokenKey then
      if |e.args| == 0 then Failure(ArgErr) else Success(s.(accessToken := e.args[0]))
    else Failure(UnrecognizedSubdirective(e.key))
  }

  /**
   The lines of the directive's block, in order; the first failing entry stops the parse. A policy
   that is already configured is never replaced.
   */
  function Entries(s: Settings, es: seq<Entry>): (r: Result<Settings, ParseError>)
    ensures r.Success? && s.robotsTxt.Some? ==> r.value.robotsTxt == s.robotsTxt
    decreases es
  {
    if |es| == 0 then Success(s)
    else
      match DirectiveEntry(s, es[0])
      case Failure(e) => Failure(e)
      case Success(s') => Entries(s', es[1..])
  }

  /**
   UnmarshalCaddyfile starting from the settings `s0`: the entries, then the checks for leftover
   arguments, for the access token and for the agent list, in that order. A successful parse has
   a token, a non-empty agent list whenever it has a policy, and nothing left over.
   */
  function Unmarshal(s0: Settings, d: Directive): (r: Result<Settings, ParseError>)
    ensures r.Success? ==> d.trailing == [] && r.value.accessToken != ""
    ensures r.Success? && r.value.robotsTxt.Some? ==> |r.value.robotsTxt.value.agentTypes| > 0
    ensures r.Success? ==> Entries(s0, d.entries) == r
  {
    match Entries(s0, d.entries)
    case Failure(e) => Failure(e)
    case Success(s) =>
      if |d.trailing| > 0 then Failure(UnexpectedArgument(d.trailing[0]))
      else if s.accessToken == "" then Failure(MissingAccessToken)
      else if s.robotsTxt.Some? && |s.robotsTxt.value.agentTypes| == 0 then Failure(MissingAgentTypeFilters)
      else Success(s)
  }

  // ---------------------------------------------------------------------------------------------
  // Which lines are accepted, and which error a bad one gives

  predicate IsWildcardLine(l: Line) {
    l.key == AgentTypesKey && |l.args| > 0 && l.args[0] == Wildcard
  }

  /** A line the robots_txt block accepts, whatever came before it. */
  predicate LineOk(l: Line) {
    || (l.key == AgentTypesKey && |l.args| > 0 && (l.args[0] == Wildcard ==> |l.args| == 1))
    || (l.key == DisallowKey && |l.args| > 0)
  }

  /** The error a rejected line gives. */
  function LineError(l: Line): ParseError
    requires !LineOk(l)
  {
    if l.key == AgentTypesKey then
      if |l.args| == 0 then ArgErr else UnexpectedArgument(l.args[1])
    else if l.key == DisallowKey then ArgErr
    else UnknownSubdirective(l.key)
  }

  /** The labels the agent_types lines of `ls` list, in order. */
  function Labels(ls: seq<Line>): seq<string> {
    if |ls| == 0 then []
    else (if ls[0].key == AgentTypesKey then ls[0].args else []) + Labels(ls[1..])
  }

  /** An entry the directive's block accepts, leaving aside whether robots_txt came before. */
  predicate EntryOk(e: Entry) {
    || (e.key == AccessTokenKey && |e.args| > 0)
    || (e.key == RobotsTxtKey && RobotsBlock(EmptyPolicy, e.block).Success?)
  }

  /** At most one robots_txt entry, and none at all when a policy is already configured. */
  predicate RobotsTxtAtMostOnce(configured: bool, es: seq<Entry>) {
    && (configured ==> forall i :: 0 <= i < |es| ==> es[i].key != RobotsTxtKey)
    && (forall i, j :: 0 <= i < j < |es| ==> es[i].key != RobotsTxtKey || es[j].key != RobotsTxtKey)
  }
}
