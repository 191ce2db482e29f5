/**
 * `ServerConnectModal`'s link targets (src/App.tsx:52-56) and the
 * `/servers/:serverName` route that receives them (src/App.tsx:136-141).
 */
module Links {
  import opened Wrappers

  /** An entry of the server list returned by the discovery endpoint. */
  datatype ServerDescriptor = ServerDescriptor(name: string)

  const ServersPrefix: string := "/servers/"

  /** The link target `/servers/${name}`. */
  function ServerLink(name: string): (r: string)
    ensures |r| == |ServersPrefix| + |name|
    ensures r[..|ServersPrefix|] == ServersPrefix && r[|ServersPrefix|..] == name
  {
    ServersPrefix + name
  }

  /** The link of every listed server, in list order (`servers.map`). */
  function ServerLinks(servers: seq<ServerDescriptor>): (r: seq<string>)
    ensures |r| == |servers|
    ensures forall i :: 0 <= i < |servers| ==> r[i] == ServersPrefix + servers[i].name
  {
    if servers == [] then [] else [ServerLink(servers[0].name)] + ServerLinks(servers[1..])
  }

  /** A `:param` segment: one or more characters, none of them `/`. */
  predicate IsSegment(s: string)
  {
    s != [] && '/' !in s
  }

  /**
   * The exact, non-strict template `/servers/:serverName` applied to a
   * path: the literal prefix, then one segment, then at most one trailing
   * `/`. The result is the captured `serverName`.
   */
  function MatchServerRoute(path: string): (r: Option<string>)
    ensures r.Some? ==> IsSegment(r.value)
    ensures r.Some? ==> path == ServersPrefix + r.value || path == ServersPrefix + r.value + "/"
  {
    if |path| < |ServersPrefix| || path[..|ServersPrefix|] != ServersPrefix then None
    else
      var rest := path[|ServersPrefix|..];
      var seg := if rest != [] && rest[|rest| - 1] == '/' then rest[..|rest| - 1] else rest;
      assert path == ServersPrefix + rest;
      assert rest != [] && rest[|rest| - 1] == '/' ==> rest == seg + "/";
      if IsSegment(seg) then Some(seg) else None
  }

  /**
   * The converse of MatchServerRoute's contract: every path made of the
   * prefix and one segment, with or without a trailing `/`, matches and
   * captures that segment.
   */
  lemma MatchServerRouteComplete(s: string)
    requires IsSegment(s)
    ensures MatchServerRoute(ServersPrefix + s) == Some(s)
    ensures MatchServerRoute(ServersPrefix + s + "/") == Some(s)
  {
    var p := ServersPrefix + s + "/";
    assert p[|ServersPrefix|..] == s + "/";
    assert (s + "/")[..|s|] == s;
    var q := ServersPrefix + s;
    assert q[|ServersPrefix|..] == s;
    assert s[|s| - 1] in s;
  }

  /**
   * A link target reaches the server route with `serverName` equal to the
   * listed name exactly when the name is a single non-empty path segment.
   */
  lemma LinkMatchesRoute(name: string)
    ensures MatchServerRoute(ServerLink(name)) == Some(name) <==> IsSegment(name)
  {
    var path := ServerLink(name);
    if IsSegment(name) {
      assert path[|ServersPrefix|..] == name;
      assert name[|name| - 1] in name;
    }
  }

  /** Every server in the list links to the route carrying its own name. */
  lemma EveryLinkMatches(servers: seq<ServerDescriptor>, i: int)
    requires 0 <= i < |servers| && IsSegment(servers[i].name)
    ensures MatchServerRoute(ServerLinks(servers)[i]) == Some(servers[i].name)
  {
    LinkMatchesRoute(servers[i].name);
  }
}
