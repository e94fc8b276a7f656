/**
 What the configuration parser promises, proved about the functions of module Caddyfile:
 which inputs it accepts, which error it reports, and which values win.
 */
module ParserProperties {
  import opened Wrappers
  import Agents
  import opened Caddyfile

  // ---------------------------------------------------------------------------------------------
  // Lines of a robots_txt block

  /** A robots_txt block parses exactly when each of its lines is acceptable on its own. */
  lemma {:induction false} RobotsBlockSucceedsIff(p: RobotsPolicy, ls: seq<Line>)
    ensures RobotsBlock(p, ls).Success? <==> forall i :: 0 <= i < |ls| ==> LineOk(ls[i])
    decreases ls
  {
    if |ls| > 0 {
      if RobotsLine(p, ls[0]).Success? {
        RobotsBlockSucceedsIff(RobotsLine(p, ls[0]).value, ls[1..]);
        assert forall i :: 1 <= i < |ls| ==> ls[i] == ls[1..][i - 1];
      }
    }
  }

  /** A rejected block reports the error of its first bad line. */
  lemma {:induction false} RobotsBlockFirstError(p: RobotsPolicy, ls: seq<Line>, i: nat)
    requires i < |ls| && !LineOk(ls[i])
    requires forall j :: 0 <= j < i ==> LineOk(ls[j])
    ensures RobotsBlock(p, ls) == Failure(LineError(ls[i]))
    decreases ls
  {
    if i > 0 {
      RobotsBlockFirstError(RobotsLine(p, ls[0]).value, ls[1..], i - 1);
    }
  }

  /** Without a leading-`*` line, the labels of all agent_types lines accumulate after the initial list. */
  lemma {:induction false} AgentTypesAccumulate(p: RobotsPolicy, ls: seq<Line>)
    requires forall j :: 0 <= j < |ls| ==> !IsWildcardLine(ls[j])
    requires RobotsBlock(p, ls).Success?
    ensures RobotsBlock(p, ls).value.agentTypes == p.agentTypes + Labels(ls)
    decreases ls
  {
    if |ls| > 0 {
      var p' := RobotsLine(p, ls[0]).value;
      var own := if ls[0].key == AgentTypesKey then ls[0].args else [];
      assert forall j :: 0 <= j < |ls[1..]| ==> ls[1..][j] == ls[j + 1];
      AgentTypesAccumulate(p', ls[1..]);
      assert p'.agentTypes == p.agentTypes + own;
      assert Labels(ls) == own + Labels(ls[1..]);
      assert (p.agentTypes + own) + Labels(ls[1..]) == p.agentTypes + (own + Labels(ls[1..]));
    }
  }

  /**
   The last `agent_types *` line discards every label before it: the list is the catalog followed by
   the labels of the agent_types lines after it.
   */
  lemma {:induction false} AgentTypesAfterLastWildcard(p: RobotsPolicy, ls: seq<Line>, k: nat)
    requires k < |ls| && IsWildcardLine(ls[k])
    requires forall j :: k < j < |ls| ==> !IsWildcardLine(ls[j])
    requires RobotsBlock(p, ls).Success?
    ensures RobotsBlock(p, ls).value.agentTypes == Agents.Catalog + Labels(ls[k + 1..])
    decreases ls
  {
    var p' := RobotsLine(p, ls[0]).value;
    if k == 0 {
      assert p'.agentTypes == Agents.Catalog;
      AgentTypesAccumulate(p', ls[1..]);
    } else {
      AgentTypesAfterLastWildcard(p', ls[1..], k - 1);
      assert ls[1..][k..] == ls[k + 1..];
    }
  }

  /** The last disallow line decides the path. */
  lemma {:induction false} DisallowLastWins(p: RobotsPolicy, ls: seq<Line>, k: nat)
    requires k < |ls| && ls[k].key == DisallowKey
    requires forall j :: k < j < |ls| ==> ls[j].key != DisallowKey
    requires RobotsBlock(p, ls).Success?
    ensures |ls[k].args| > 0 && RobotsBlock(p, ls).value.disallow == ls[k].args[0]
    decreases ls
  {
    var p' := RobotsLine(p, ls[0]).value;
    if k == 0 {
      DisallowUnset(p', ls[1..]);
    } else {
      DisallowLastWins(p', ls[1..], k - 1);
    }
  }

  /** Without a disallow line the path stays what it was (empty for a new block). */
  lemma {:induction false} DisallowUnset(p: RobotsPolicy, ls: seq<Line>)
    requires forall j :: 0 <= j < |ls| ==> ls[j].key != DisallowKey
    requires RobotsBlock(p, ls).Success?
    ensures RobotsBlock(p, ls).value.disallow == p.disallow
    decreases ls
  {
    if |ls| > 0 {
      DisallowUnset(RobotsLine(p, ls[0]).value, ls[1..]);
    }
  }

  // ---------------------------------------------------------------------------------------------
  // Entries of the directive's block

  /** Splitting the entries: the parse of `es` is the parse of its first `i` entries, continued. */
  lemma {:induction false} EntriesSplit(s: Settings, es: seq<Entry>, i: nat)
    requires i <= |es|
    ensures Entries(s, es) ==
              match Entries(s, es[..i])
              case Failure(e) => Failure(e)
              case Success(s') => Entries(s', es[i..])
    decreases es
  {
    if i > 0 {
      match DirectiveEntry(s, es[0])
      case Failure(e) =>
      case Success(s') =>
        EntriesSplit(s', es[1..], i - 1);
        assert es[1..][..i - 1] == es[..i][1..];
        assert es[1..][i - 1..] == es[i..];
    }
  }

  lemma AtMostOnceCons(configured: bool, e: Entry, rest: seq<Entry>)
    ensures RobotsTxtAtMostOnce(configured, [e] + rest) <==>
              && (e.key == RobotsTxtKey ==> !configured && RobotsTxtAtMostOnce(true, rest))
              && RobotsTxtAtMostOnce(configured || e.key == RobotsTxtKey, rest)
  {
    var es := [e] + rest;
    assert forall i :: 0 <= i < |rest| ==> rest[i] == es[i + 1];
    if RobotsTxtAtMostOnce(configured, es) {
      forall i, j | 0 <= i < j < |rest|
        ensures rest[i].key != RobotsTxtKey || rest[j].key != RobotsTxtKey
      {
        assert es[i + 1] == rest[i] && es[j + 1] == rest[j];
      }
      if e.key == RobotsTxtKey {
        forall i | 0 <= i < |rest| ensures rest[i].key != RobotsTxtKey {
          assert es[0] == e && es[i + 1] == rest[i];
        }
      }
    }
  }

  /**
   The directive's block parses exactly when every entry is acceptable on its own and robots_txt
   appears at most once (and not at all if a policy was already configured).
   */
  lemma {:induction false} EntriesSucceedIff(s: Settings, es: seq<Entry>)
    ensures Entries(s, es).Success? <==>
              (forall i :: 0 <= i < |es| ==> EntryOk(es[i])) && RobotsTxtAtMostOnce(s.robotsTxt.Some?, es)
    decreases es
  {
    if |es| > 0 {
      var e, rest := es[0], es[1..];
      assert es == [e] + rest;
      AtMostOnceCons(s.robotsTxt.Some?, e, rest);
      assert forall i :: 1 <= i < |es| ==> es[i] == rest[i - 1];
      match DirectiveEntry(s, e)
      case Failure(_) =>
        assert !EntryOk(e) || (e.key == RobotsTxtKey && s.robotsTxt.Some?);
      case Success(s') =>
        EntriesSucceedIff(s', rest);
        assert s'.robotsTxt.Some? == (s.robotsTxt.Some? || e.key == RobotsTxtKey);
        if e.key == RobotsTxtKey && RobotsTxtAtMostOnce(s'.robotsTxt.Some?, rest) {
          assert RobotsTxtAtMostOnce(true, rest);
        }
    }
  }

  /** Entries other than access_token leave the token alone. */
  lemma {:induction false} AccessTokenUnset(s: Settings, es: seq<Entry>)
    requires forall j :: 0 <= j < |es| ==> es[j].key != AccessTokenKey
    requires Entries(s, es).Success?
    ensures Entries(s, es).value.accessToken == s.accessToken
    decreases es
  {
    if |es| > 0 {
      AccessTokenUnset(DirectiveEntry(s, es[0]).value, es[1..]);
    }
  }

  /** The last access_token line decides the token. */
  lemma {:induction false} AccessTokenLastWins(s: Settings, es: seq<Entry>, k: nat)
    requires k < |es| && es[k].key == AccessTokenKey
    requires forall j :: k < j < |es| ==> es[j].key != AccessTokenKey
    requires Entries(s, es).Success?
    ensures |es[k].args| > 0 && Entries(s, es).value.accessToken == es[k].args[0]
    decreases es
  {
    var s' := DirectiveEntry(s, es[0]).value;
    if k == 0 {
      AccessTokenUnset(s', es[1..]);
    } else {
      AccessTokenLastWins(s', es[1..], k - 1);
    }
  }

  /** Entries other than robots_txt leave the policy alone. */
  lemma {:induction false} RobotsTxtUnset(s: Settings, es: seq<Entry>)
    requires forall j :: 0 <= j < |es| ==> es[j].key != RobotsTxtKey
    requires Entries(s, es).Success?
    ensures Entries(s, es).value.robotsTxt == s.robotsTxt
    decreases es
  {
    if |es| > 0 {
      RobotsTxtUnset(DirectiveEntry(s, es[0]).value, es[1..]);
    }
  }

  /** The policy of a successful parse is the one its robots_txt block describes, built from a new policy. */
  lemma {:induction false} RobotsTxtFromBlock(s: Settings, es: seq<Entry>, k: nat)
    requires k < |es| && es[k].key == RobotsTxtKey
    requires Entries(s, es).Success?
    ensures RobotsBlock(EmptyPolicy, es[k].block).Success?
    ensures Entries(s, es).value.robotsTxt == Some(RobotsBlock(EmptyPolicy, es[k].block).value)
    decreases es
  {
    EntriesSucceedIff(s, es);
    var s' := DirectiveEntry(s, es[0]).value;
    if k == 0 {
      forall j | 0 <= j < |es[1..]| ensures es[1..][j].key != RobotsTxtKey {
        assert es[1..][j] == es[j + 1];
      }
      RobotsTxtUnset(s', es[1..]);
    } else {
      RobotsTxtFromBlock(s', es[1..], k - 1);
    }
  }

  /** A second robots_txt entry fails with "robots_txt is already configured" once the entries before it parse. */
  lemma DuplicateRobotsTxt(s: Settings, es: seq<Entry>, i: nat, j: nat)
    requires i < j < |es| && es[i].key == RobotsTxtKey && es[j].key == RobotsTxtKey
    requires Entries(s, es[..j]).Success?
    ensures Entries(s, es) == Failure(AlreadyConfigured)
  {
    EntriesSplit(s, es, j);
    RobotsTxtFromBlock(s, es[..j], i);
    assert es[j..][0] == es[j];
  }

  /** An unknown key in the directive's block fails naming it, once the entries before it parse. */
  lemma UnknownKeyFails(s: Settings, es: seq<Entry>, i: nat)
    requires i < |es| && es[i].key != RobotsTxtKey && es[i].key != AccessTokenKey
    requires Entries(s, es[..i]).Success?
    ensures Entries(s, es) == Failure(UnrecognizedSubdirective(es[i].key))
  {
    EntriesSplit(s, es, i);
    assert es[i..][0] == es[i];
  }

  /** access_token without an argument fails with an argument error, once the entries before it parse. */
  lemma AccessTokenWithoutArgument(s: Settings, es: seq<Entry>, i: nat)
    requires i < |es| && es[i].key == AccessTokenKey && es[i].args == []
    requires Entries(s, es[..i]).Success?
    ensures Entries(s, es) == Failure(ArgErr)
  {
    EntriesSplit(s, es, i);
    assert es[i..][0] == es[i];
  }

  /**
   A rejected line in the first robots_txt block fails the whole parse with that line's error, once
   the entries before the block parse: an unknown key as "unknown subdirective", a missing argument as
   an argument error, and an argument after `*` as "unexpected argument".
   */
  lemma RobotsLineErrorPropagates(s: Settings, es: seq<Entry>, i: nat, k: nat)
    requires s.robotsTxt == None
    requires i < |es| && es[i].key == RobotsTxtKey
    requires forall j :: 0 <= j < i ==> es[j].key != RobotsTxtKey
    requires Entries(s, es[..i]).Success?
    requires k < |es[i].block| && !LineOk(es[i].block[k])
    requires forall j :: 0 <= j < k ==> LineOk(es[i].block[j])
    ensures Entries(s, es) == Failure(LineError(es[i].block[k]))
  {
    EntriesSplit(s, es, i);
    RobotsTxtUnset(s, es[..i]);
    RobotsBlockFirstError(EmptyPolicy, es[i].block, k);
    assert es[i..][0] == es[i];
  }

  // ---------------------------------------------------------------------------------------------
  // The whole directive

  /** The missing-token check runs before the agent-list check, and both after the leftover-argument check. */
  lemma PostParseCheckOrder(s0: Settings, d: Directive)
    requires Entries(s0, d.entries).Success?
    ensures d.trailing != [] ==> Unmarshal(s0, d) == Failure(UnexpectedArgument(d.trailing[0]))
    ensures d.trailing == [] && Entries(s0, d.entries).value.accessToken == "" ==>
              Unmarshal(s0, d) == Failure(MissingAccessToken)
    ensures var s := Entries(s0, d.entries).value;
            d.trailing == [] && s.accessToken != "" && s.robotsTxt.Some? && s.robotsTxt.value.agentTypes == [] ==>
              Unmarshal(s0, d) == Failure(MissingAgentTypeFilters)
  {
  }

  /** An error in the entries is reported before any post-parse check. */
  lemma EntryErrorFirst(s0: Settings, d: Directive)
    requires Entries(s0, d.entries).Failure?
    ensures Unmarshal(s0, d) == Entries(s0, d.entries)
  {
  }

  /** The parse of a one-entry or two-entry directive block, written out. */
  lemma EntriesUnfold(s: Settings, e1: Entry, e2: Entry)
    ensures Entries(s, [e1]) == DirectiveEntry(s, e1)
    ensures Entries(s, [e1, e2]) ==
              match DirectiveEntry(s, e1)
              case Failure(x) => Failure(x)
              case Success(s1) => DirectiveEntry(s1, e2)
  {
    assert [e1][1..] == [] && [e1, e2][1..] == [e2];
    match DirectiveEntry(s, e1)
    case Failure(_) =>
    case Success(s1) =>
      assert Entries(s1, [e2]) == match DirectiveEntry(s1, e2) case Failure(x) => Failure(x) case Success(s2) => Entries(s2, []);
  }

  /** The parse of a one-line or two-line robots_txt block, written out. */
  lemma RobotsBlockUnfold(p: RobotsPolicy, l1: Line, l2: Line)
    ensures RobotsBlock(p, [l1]) == RobotsLine(p, l1)
    ensures RobotsBlock(p, [l1, l2]) ==
              match RobotsLine(p, l1)
              case Failure(x) => Failure(x)
              case Success(p1) => RobotsLine(p1, l2)
  {
    assert [l1][1..] == [] && [l1, l2][1..] == [l2];
    match RobotsLine(p, l1)
    case Failure(_) =>
    case Success(p1) =>
      assert RobotsBlock(p1, [l2]) == match RobotsLine(p1, l2) case Failure(x) => Failure(x) case Success(p2) => RobotsBlock(p2, []);
  }

  /** A block holding only `access_token X` configures the token X and no robots.txt policy. */
  lemma AccessTokenOnly(token: string)
    requires token != ""
    ensures Unmarshal(Unconfigured, Directive([Entry(AccessTokenKey, [token], [])], [])) ==
              Success(Settings(token, None))
  {
    var e := Entry(AccessTokenKey, [token], []);
    EntriesUnfold(Unconfigured, e, e);
  }

  /** An empty access token is rejected even when the robots_txt block is also incomplete. */
  lemma EmptyTokenRejected()
    ensures Unmarshal(Unconfigured, Directive([Entry(AccessTokenKey, [""], []), Entry(RobotsTxtKey, [], [])], [])) ==
              Failure(MissingAccessToken)
  {
    EntriesUnfold(Unconfigured, Entry(AccessTokenKey, [""], []), Entry(RobotsTxtKey, [], []));
  }

  /** A robots_txt block without agent_types fails with "missing agent type filters". */
  lemma RobotsTxtWithoutAgentTypes(token: string, path: string)
    requires token != ""
    ensures Unmarshal(Unconfigured,
              Directive([Entry(AccessTokenKey, [token], []), Entry(RobotsTxtKey, [], [Line(DisallowKey, [path])])], []))
            == Failure(MissingAgentTypeFilters)
  {
    var l := Line(DisallowKey, [path]);
    RobotsBlockUnfold(EmptyPolicy, l, l);
    EntriesUnfold(Unconfigured, Entry(AccessTokenKey, [token], []), Entry(RobotsTxtKey, [], [l]));
  }

  /**
   `agent_types a b ...` with explicit labels and `disallow path` gives those labels in the given
   order and that path; without a disallow line the path is left empty for provisioning to fill in.
   */
  lemma ExplicitAgentTypes(token: string, labels: seq<string>, path: string)
    requires token != "" && labels != [] && labels[0] != Wildcard
    ensures Unmarshal(Unconfigured,
              Directive([Entry(AccessTokenKey, [token], []),
                         Entry(RobotsTxtKey, [], [Line(AgentTypesKey, labels), Line(DisallowKey, [path])])], []))
            == Success(Settings(token, Some(RobotsPolicy(labels, path))))
    ensures Unmarshal(Unconfigured,
              Directive([Entry(AccessTokenKey, [token], []),
                         Entry(RobotsTxtKey, [], [Line(AgentTypesKey, labels)])], []))
            == Success(Settings(token, Some(RobotsPolicy(labels, ""))))
  {
    var l1, l2 := Line(AgentTypesKey, labels), Line(DisallowKey, [path]);
    assert [] + labels == labels;
    RobotsBlockUnfold(EmptyPolicy, l1, l2);
    var e := Entry(AccessTokenKey, [token], []);
    EntriesUnfold(Unconfigured, e, Entry(RobotsTxtKey, [], [l1, l2]));
    EntriesUnfold(Unconfigured, e, Entry(RobotsTxtKey, [], [l1]));
  }

  /** `agent_types *` alone expands to the whole catalog; anything after the `*` is rejected by name. */
  lemma WildcardAgentTypes(token: string, path: string, extra: seq<string>)
    requires token != ""
    ensures Unmarshal(Unconfigured,
              Directive([Entry(AccessTokenKey, [token], []),
                         Entry(RobotsTxtKey, [], [Line(AgentTypesKey, [Wildcard]), Line(DisallowKey, [path])])], []))
            == Success(Settings(token, Some(RobotsPolicy(Agents.Catalog, path))))
    ensures extra != [] ==>
              Unmarshal(Unconfigured,
                Directive([Entry(AccessTokenKey, [token], []),
                           Entry(RobotsTxtKey, [], [Line(AgentTypesKey, [Wildcard] + extra)])], []))
              == Failure(UnexpectedArgument(extra[0]))
  {
    var l1, l2 := Line(AgentTypesKey, [Wildcard]), Line(DisallowKey, [path]);
    RobotsBlockUnfold(EmptyPolicy, l1, l2);
    var e := Entry(AccessTokenKey, [token], []);
    EntriesUnfold(Unconfigured, e, Entry(RobotsTxtKey, [], [l1, l2]));
    if extra != [] {
      var bad := Line(AgentTypesKey, [Wildcard] + extra);
      assert ([Wildcard] + extra)[1] == extra[0];
      RobotsBlockUnfold(EmptyPolicy, bad, bad);
      EntriesUnfold(Unconfigured, e, Entry(RobotsTxtKey, [], [bad]));
    }
  }

  /**
   A `*` that is not the first argument is an ordinary label: it is kept verbatim, and Validate then
   rejects it as the first unrecognized label.
   */
  lemma LateWildcardIsALabel(p: RobotsPolicy, a: string)
    requires a != Wildcard && a in Agents.Catalog
    requires forall i :: 0 <= i < |p.agentTypes| ==> p.agentTypes[i] in Agents.Catalog
    ensures RobotsBlock(p, [Line(AgentTypesKey, [a, Wildcard])]) == Success(RobotsPolicy(p.agentTypes + [a, Wildcard], p.disallow))
    ensures Agents.FirstUnrecognized(p.agentTypes + [a, Wildcard]) == Some(|p.agentTypes| + 1)
  {
    var ls := p.agentTypes + [a, Wildcard];
    assert ls[|p.agentTypes| + 1] == Wildcard;
    assert Wildcard !in Agents.Catalog;
  }
}
