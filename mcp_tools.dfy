/** The MCP server registry of the chat extension (jupyter_ai_agents/chat/mcp_tools.py): server
    configurations and the clients of the enabled ones, kept in two dictionaries. */
module McpTools {

  /** An MCP server configuration (`MCPServer`). */
  datatype MCPServer = MCPServer(id: string, name: string, url: string, enabled: bool, tools: seq<string>)

  /** `url.rstrip('/')`: every trailing '/' removed. */
  function RStripSlash(url: string): (r: string)
    ensures |r| <= |url| && r == url[..|r|]
    ensures r == [] || r[|r| - 1] != '/'
    ensures forall i | |r| <= i < |url| :: url[i] == '/'
    decreases |url|
  {
    if url != [] && url[|url| - 1] == '/' then RStripSlash(url[..|url| - 1]) else url
  }

  /** The stripped URL is the only string meeting the three conditions: a prefix of the URL,
      not ending in '/', and followed only by '/'. */
  lemma {:induction false} RStripSlashUnique(url: string, r: string)
    requires |r| <= |url| && r == url[..|r|]
    requires r == [] || r[|r| - 1] != '/'
    requires forall i | |r| <= i < |url| :: url[i] == '/'
    ensures RStripSlash(url) == r
    decreases |url|
  {
    if url != [] && url[|url| - 1] == '/' {
      var shorter := url[..|url| - 1];
      assert r != url;
      RStripSlashUnique(shorter, r);
    } else if url != [] {
      assert url[|url| - 1] != '/';
      assert |r| == |url|;
    }
  }

  /** Stripping twice is stripping once. */
  lemma RStripSlashIdempotent(url: string)
    ensures RStripSlash(RStripSlash(url)) == RStripSlash(url)
  {
  }

  /** `MCPClient`: the HTTP client of one server, bound to its normalised URL. */
  class MCPClient {
    const serverUrl: string

    constructor (serverUrl: string)
      ensures this.serverUrl == RStripSlash(serverUrl)
    {
      this.serverUrl := RStripSlash(serverUrl);
    }
  }

  predicate Distinct(s: seq<string>) {
    forall i, j | 0 <= i < j < |s| :: s[i] != s[j]
  }

  /** `s` with every occurrence of `x` removed. */
  function Without(s: seq<string>, x: string): (r: seq<string>)
    ensures forall y :: y in r <==> y in s && y != x
    ensures Distinct(s) ==> Distinct(r)
    ensures x !in s ==> r == s
    decreases |s|
  {
    if s == [] then []
    else
      var rest := Without(s[1..], x);
      assert forall i | 1 <= i < |s| :: s[i] == s[1..][i - 1];
      if s[0] == x then rest
      else
        assert Distinct(s) ==> s[0] !in s[1..] && Distinct(s[1..]);
        assert Distinct(s) ==> s[0] !in rest;
        [s[0]] + rest
  }

  /** `del` keeps the order of the other ids: removing from a concatenation removes from
      each part. */
  lemma {:induction false} WithoutAppend(a: seq<string>, b: seq<string>, x: string)
    ensures Without(a + b, x) == Without(a, x) + Without(b, x)
    decreases |a|
  {
    if a == [] {
      assert a + b == b;
    } else {
      assert (a + b)[1..] == a[1..] + b;
      assert (a + b)[0] == a[0];
      WithoutAppend(a[1..], b, x);
      if a[0] != x {
        assert [a[0]] + (Without(a[1..], x) + Without(b, x)) == ([a[0]] + Without(a[1..], x)) + Without(b, x);
      }
    }
  }

  /** A duplicate-free sequence has as many elements as the set of its elements. */
  lemma {:induction false} DistinctCardinality(s: seq<string>, keys: set<string>)
    requires Distinct(s)
    requires forall k :: k in s <==> k in keys
    ensures |s| == |keys|
    decreases |s|
  {
    if s != [] {
      assert forall i | 1 <= i < |s| :: s[i] == s[1..][i - 1];
      assert s[0] !in s[1..];
      DistinctCardinality(s[1..], keys - {s[0]});
    }
  }

  /** `MCPToolManager`. `order` lists the server ids in the dictionaries' insertion order. */
  class MCPToolManager {
    var servers: map<string, MCPServer>
    var clients: map<string, MCPClient>
    var order: seq<string>

    /** Every client belongs to a registered server; `order` lists each server id once. */
    ghost predicate Valid()
      reads this
    {
      clients.Keys <= servers.Keys
      && Distinct(order)
      && forall k :: k in order <==> k in servers
    }

    constructor ()
      ensures Valid()
      ensures servers == map[] && clients == map[] && order == []
    {
      servers := map[];
      clients := map[];
      order := [];
    }

    /** `add_server`: store the server under its own id; an enabled server gets a new client,
        a disabled one leaves the clients as they are. */
    method AddServer(server: MCPServer)
      requires Valid()
      modifies this
      ensures Valid()
      ensures servers == old(servers)[server.id := server]
      ensures server.enabled ==>
        server.id in clients && fresh(clients[server.id])
        && clients[server.id].serverUrl == RStripSlash(server.url)
        && clients - {server.id} == old(clients) - {server.id}
      ensures !server.enabled ==> clients == old(clients)
      ensures order == if server.id in old(servers) then old(order) else old(order) + [server.id]
    {
      if server.id !in servers {
        order := order + [server.id];
      }
      servers := servers[server.id := server];
      if server.enabled {
        var client := new MCPClient(server.url);
        clients := clients[server.id := client];
      }
    }

    /** `remove_server`: forget the id in both dictionaries; an unknown id changes nothing. */
    method RemoveServer(serverId: string)
      requires Valid()
      modifies this
      ensures Valid()
      ensures servers == old(servers) - {serverId}
      ensures clients == old(clients) - {serverId}
      ensures order == Without(old(order), serverId)
      ensures serverId !in old(servers) ==> servers == old(servers) && clients == old(clients) && order == old(order)
    {
      if serverId in servers {
        servers := servers - {serverId};
        order := Without(order, serverId);
      }
      if serverId in clients {
        clients := clients - {serverId};
      }
    }

    /** `update_server`: store the server under the given id (not the server's own); create a
        client only when the server is enabled and has none, drop it when disabled. */
    method UpdateServer(serverId: string, server: MCPServer)
      requires Valid()
      modifies this
      ensures Valid()
      ensures servers == old(servers)[serverId := server]
      ensures server.enabled && serverId !in old(clients) ==>
        serverId in clients && fresh(clients[serverId])
        && clients[serverId].serverUrl == RStripSlash(server.url)
        && clients - {serverId} == old(clients)
      ensures server.enabled && serverId in old(clients) ==> clients == old(clients)
      ensures !server.enabled ==> clients == old(clients) - {serverId}
      ensures order == if serverId in old(servers) then old(order) else old(order) + [serverId]
    {
      if serverId !in servers {
        order := order + [serverId];
      }
      servers := servers[serverId := server];
      if server.enabled && serverId !in clients {
        var client := new MCPClient(server.url);
        clients := clients[serverId := client];
      } else if !server.enabled && serverId in clients {
        clients := clients - {serverId};
      }
    }

    /** `get_servers`: the stored configurations, one per id, in insertion order. */
    method GetServers() returns (r: seq<MCPServer>)
      requires Valid()
      ensures |r| == |servers| == |order|
      ensures forall i | 0 <= i < |r| :: order[i] in servers && r[i] == servers[order[i]]
      ensures forall id | id in servers :: servers[id] in r
    {
      DistinctCardinality(order, servers.Keys);
      var ids, stored := order, servers;
      assert forall i | 0 <= i < |ids| :: ids[i] in ids;
      r := seq(|ids|, i requires 0 <= i < |ids| && ids[i] in stored => stored[ids[i]]);
      forall id | id in servers ensures servers[id] in r {
        var i :| 0 <= i < |order| && order[i] == id;
        assert r[i] == servers[id];
      }
    }
  }
}
