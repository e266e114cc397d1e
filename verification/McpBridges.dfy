/**
 MCP servers of a session: the overlay of client servers on the configured ones, and the bridges
 started for them, which a failed session must release.
 */
module McpBridges {
  import opened Wrappers
  import opened Text

  type Bridge = nat
  type ServerConfig = string

  /** A server the client asks for; no configuration means its parameters are refused. */
  datatype Server =
    | Acp(name: string, starts: bool, config: Option<ServerConfig>)
    | Direct(name: string, config: Option<ServerConfig>)
    | Unsupported

  /** Bridges are numbered as they start; `shut` lists every shutdown, in order. */
  datatype Bridges = Bridges(started: nat, shut: seq<Bridge>)

  datatype Build = Build(bridges: Bridges, servers: map<string, ServerConfig>, owned: seq<Bridge>)

  function NormalizeName(name: string): (r: string)
    ensures |r| == |name|
    ensures forall i :: 0 <= i < |r| ==> r[i] == if IsWhitespace(name[i]) then '_' else name[i]
  {
    seq(|name|, i requires 0 <= i < |name| => if IsWhitespace(name[i]) then '_' else name[i])
  }

  predicate Fails(s: Server) {
    match s
    case Acp(_, starts, config) => !starts || config.None?
    case Direct(_, config) => config.None?
    case Unsupported => false
  }

  /** A configured server of the same name wins, unless filtering is off. */
  predicate Filtered(configured: map<string, ServerConfig>, name: string, filteringDisabled: bool) {
    !filteringDisabled && name in configured
  }

  function Shut(b: Bridges, bridges: seq<Bridge>): Bridges {
    b.(shut := b.shut + bridges)
  }

  function Started(b: Bridges): Bridges {
    b.(started := b.started + 1)
  }

  function Added(configured: map<string, ServerConfig>, filteringDisabled: bool, b: Build, s: Server): Build
    requires !Fails(s)
  {
    match s
    case Unsupported => b
    case Direct(name, config) =>
      if Filtered(configured, NormalizeName(name), filteringDisabled) then b
      else b.(servers := b.servers[NormalizeName(name) := config.value])
    case Acp(name, _, config) =>
      var bridge := b.bridges.started;
      if Filtered(configured, NormalizeName(name), filteringDisabled)
      then b.(bridges := Shut(Started(b.bridges), [bridge]))
      else Build(Started(b.bridges), b.servers[NormalizeName(name) := config.value], b.owned + [bridge])
  }

  /** A server that cannot be added takes its own bridge and the others down. */
  function RolledBack(b: Build, s: Server): Bridges
    requires Fails(s)
  {
    if s.Acp? && s.starts then Shut(Shut(Started(b.bridges), [b.bridges.started]), b.owned)
    else Shut(b.bridges, b.owned)
  }

  datatype Outcome = Built(build: Build) | Refused(bridges: Bridges)

  function AddAll(configured: map<string, ServerConfig>, filteringDisabled: bool, b: Build, servers: seq<Server>): Outcome
    decreases |servers|
  {
    if servers == [] then Built(b)
    else if Fails(servers[0]) then Refused(RolledBack(b, servers[0]))
    else AddAll(configured, filteringDisabled, Added(configured, filteringDisabled, b, servers[0]), servers[1..])
  }

  function BuildSession(
      configured: map<string, ServerConfig>, filteringDisabled: bool, servers: seq<Server>, accepted: bool, b: Bridges): Outcome
  {
    match AddAll(configured, filteringDisabled, Build(b, configured, []), servers)
    case Built(build) => if accepted then Built(build) else Refused(Shut(build.bridges, build.owned))
    case refused => refused
  }

  // ---------------------------------------------------------------------------------------------
  // Sessions

  /** Which session entry point runs, and whether the thread starts, history replays, it loads, and is kept. */
  datatype Opening = Opening(starts: bool, replays: Option<bool>, loads: bool, inserted: bool)

  predicate Succeeds(o: Opening) {
    o.starts && o.replays != Some(false) && o.loads && o.inserted
  }

  datatype Session = Opened(thread: seq<Bridge>, bridges: Bridges, servers: map<string, ServerConfig>) | Closed(bridges: Bridges)

  function OpenSession(
      configured: map<string, ServerConfig>, filteringDisabled: bool, servers: seq<Server>, accepted: bool,
      opening: Opening, b: Bridges): Session
  {
    match BuildSession(configured, filteringDisabled, servers, accepted, b)
    case Refused(b') => Closed(b')
    case Built(build) =>
      if Succeeds(opening) then Opened(build.owned, build.bridges, build.servers)
      else Closed(Shut(build.bridges, build.owned))
  }

  // ---------------------------------------------------------------------------------------------
  // Every bridge is shut down once, or owned

  function Range(lo: nat, hi: nat): seq<Bridge>
    requires lo <= hi
  {
    seq(hi - lo, i requires 0 <= i => lo + i)
  }

  /** Since `before`, each bridge started was shut down once or is owned once, and no other was touched. */
  ghost predicate Balanced(before: Bridges, after: Bridges, owned: seq<Bridge>) {
    && before.started <= after.started
    && before.shut <= after.shut
    && multiset(after.shut[|before.shut|..]) + multiset(owned) == multiset(Range(before.started, after.started))
  }

  lemma ShutBalances(before: Bridges, b: Bridges, some: seq<Bridge>, rest: seq<Bridge>)
    requires Balanced(before, b, some + rest)
    ensures Balanced(before, Shut(b, some), rest)
  {
    assert Shut(b, some).shut[|before.shut|..] == b.shut[|before.shut|..] + some;
    assert multiset(some + rest) == multiset(some) + multiset(rest);
  }

  lemma StartBalances(before: Bridges, b: Bridges, owned: seq<Bridge>)
    requires Balanced(before, b, owned)
    ensures Balanced(before, Started(b), owned + [b.started])
    ensures Balanced(before, Started(b), [b.started] + owned)
  {
    assert Range(before.started, b.started + 1) == Range(before.started, b.started) + [b.started];
    assert multiset([b.started] + owned) == multiset(owned + [b.started]);
  }

  lemma AddedBalances(before: Bridges, configured: map<string, ServerConfig>, filteringDisabled: bool, b: Build, s: Server)
    requires Balanced(before, b.bridges, b.owned) && !Fails(s)
    ensures var b' := Added(configured, filteringDisabled, b, s); Balanced(before, b'.bridges, b'.owned)
  {
    StartBalances(before, b.bridges, b.owned);
    ShutBalances(before, Started(b.bridges), [b.bridges.started], b.owned);
  }

  lemma RolledBackBalances(before: Bridges, b: Build, s: Server)
    requires Balanced(before, b.bridges, b.owned) && Fails(s)
    ensures Balanced(before, RolledBack(b, s), [])
  {
    assert b.owned + [] == b.owned;
    if s.Acp? && s.starts {
      StartBalances(before, b.bridges, b.owned);
      ShutBalances(before, Started(b.bridges), [b.bridges.started], b.owned);
      ShutBalances(before, Shut(Started(b.bridges), [b.bridges.started]), b.owned, []);
    } else {
      ShutBalances(before, b.bridges, b.owned, []);
    }
  }

  ghost predicate OutcomeBalanced(before: Bridges, o: Outcome) {
    match o
    case Built(b) => Balanced(before, b.bridges, b.owned)
    case Refused(b) => Balanced(before, b, [])
  }

  lemma {:induction false} AddAllBalances(
      before: Bridges, configured: map<string, ServerConfig>, filteringDisabled: bool, b: Build, servers: seq<Server>)
    requires Balanced(before, b.bridges, b.owned)
    ensures OutcomeBalanced(before, AddAll(configured, filteringDisabled, b, servers))
    ensures AddAll(configured, filteringDisabled, b, servers).Refused? <==> exists s :: s in servers && Fails(s)
    decreases |servers|
  {
    if servers != [] {
      var s := servers[0];
      if Fails(s) {
        RolledBackBalances(before, b, s);
      } else {
        AddedBalances(before, configured, filteringDisabled, b, s);
        AddAllBalances(before, configured, filteringDisabled, Added(configured, filteringDisabled, b, s), servers[1..]);
        assert servers == [s] + servers[1..];
      }
    }
  }

  /**
   However a session is opened and wherever that fails, each bridge started for it is owned by the
   session or was shut down once, never both; a session that fails owns none. It fails exactly when
   a server is refused, the configuration is, or a later stage does not succeed.
   */
  lemma BridgesAreOwnedOrShutOnce(
      configured: map<string, ServerConfig>, filteringDisabled: bool, servers: seq<Server>, accepted: bool,
      opening: Opening, b: Bridges)
    ensures var session := OpenSession(configured, filteringDisabled, servers, accepted, opening, b);
            && Balanced(b, session.bridges, if session.Opened? then session.thread else [])
            && (session.Closed? <==>
                  || (exists s :: s in servers && Fails(s)) || !accepted
                  || !opening.starts || opening.replays == Some(false) || !opening.loads || !opening.inserted)
  {
    var start := Build(b, configured, []);
    assert b.shut[|b.shut|..] == [] && Range(b.started, b.started) == [];
    AddAllBalances(b, configured, filteringDisabled, start, servers);
    var o := AddAll(configured, filteringDisabled, start, servers);
    if o.Built? {
      assert o.build.owned + [] == o.build.owned;
      ShutBalances(b, o.build.bridges, o.build.owned, []);
    }
  }

  /** A server fails when it has no usable configuration, or its bridge does not start. */
  lemma FailsExactly(s: Server)
    ensures Fails(s) <==>
              (s.Acp? && !s.starts) || (!s.Unsupported? && s.config.None?)
  {}

  // ---------------------------------------------------------------------------------------------
  // Which bridges a session owns

  /** How many of the servers are reached through a bridge. */
  function Acps(servers: seq<Server>): nat {
    if servers == [] then 0 else (if servers[0].Acp? then 1 else 0) + Acps(servers[1..])
  }

  /** The bridge is the one started for the i-th server, whose name no configured server keeps. */
  ghost predicate Owns(
      configured: map<string, ServerConfig>, filteringDisabled: bool, servers: seq<Server>, first: Bridge, i: nat, bridge: Bridge)
  {
    && i < |servers| && servers[i].Acp? && bridge == first + Acps(servers[..i])
    && (filteringDisabled || NormalizeName(servers[i].name) !in configured)
  }

  lemma OwnsFurtherOn(
      configured: map<string, ServerConfig>, filteringDisabled: bool, servers: seq<Server>, first: Bridge, i: nat, bridge: Bridge)
    requires servers != []
    ensures Owns(configured, filteringDisabled, servers, first, i + 1, bridge)
       <==> Owns(configured, filteringDisabled, servers[1..], first + Acps([servers[0]]), i, bridge)
  {
    assert [servers[0]][1..] == [];
    if i + 1 < |servers| {
      assert servers[..i + 1][1..] == servers[1..][..i];
    }
  }

  lemma {:induction false} AddAllOwns(
      configured: map<string, ServerConfig>, filteringDisabled: bool, b: Build, servers: seq<Server>, bridge: Bridge)
    requires forall s :: s in servers ==> !Fails(s)
    ensures var o := AddAll(configured, filteringDisabled, b, servers);
            && o.Built? && o.build.bridges.started == b.bridges.started + Acps(servers)
            && (bridge in o.build.owned <==>
                  || bridge in b.owned
                  || exists i: nat :: Owns(configured, filteringDisabled, servers, b.bridges.started, i, bridge))
    decreases |servers|
  {
    if servers != [] {
      var s, rest, first := servers[0], servers[1..], b.bridges.started;
      var b' := Added(configured, filteringDisabled, b, s);
      assert [s][1..] == [] && servers[..0] == [];
      AddAllOwns(configured, filteringDisabled, b', rest, bridge);
      assert bridge in b'.owned <==> bridge in b.owned || Owns(configured, filteringDisabled, servers, first, 0, bridge);
      forall i: nat
        ensures Owns(configured, filteringDisabled, servers, first, i + 1, bridge)
           <==> Owns(configured, filteringDisabled, rest, b'.bridges.started, i, bridge)
      {
        OwnsFurtherOn(configured, filteringDisabled, servers, first, i, bridge);
      }
      if i: nat :| Owns(configured, filteringDisabled, servers, first, i, bridge) {
        assert i > 0 ==> Owns(configured, filteringDisabled, rest, b'.bridges.started, i - 1, bridge);
      }
    }
  }

  /** An opened session owns exactly the bridges of the servers it kept, numbered as they were started. */
  lemma SessionOwnsExactly(
      configured: map<string, ServerConfig>, filteringDisabled: bool, servers: seq<Server>, accepted: bool,
      opening: Opening, b: Bridges, bridge: Bridge)
    requires OpenSession(configured, filteringDisabled, servers, accepted, opening, b).Opened?
    ensures var session := OpenSession(configured, filteringDisabled, servers, accepted, opening, b);
            && session.bridges.started == b.started + Acps(servers)
            && (bridge in session.thread <==>
                  exists i: nat :: Owns(configured, filteringDisabled, servers, b.started, i, bridge))
  {
    BridgesAreOwnedOrShutOnce(configured, filteringDisabled, servers, accepted, opening, b);
    AddAllOwns(configured, filteringDisabled, Build(b, configured, []), servers, bridge);
  }

  /** Shutting the session down later releases exactly what it owns: then every bridge was shut down once. */
  lemma ShutdownReleasesTheRest(
      configured: map<string, ServerConfig>, filteringDisabled: bool, servers: seq<Server>, accepted: bool,
      opening: Opening, b: Bridges)
    requires OpenSession(configured, filteringDisabled, servers, accepted, opening, b).Opened?
    ensures var session := OpenSession(configured, filteringDisabled, servers, accepted, opening, b);
            Balanced(b, Shut(session.bridges, session.thread), [])
  {
    var session := OpenSession(configured, filteringDisabled, servers, accepted, opening, b);
    BridgesAreOwnedOrShutOnce(configured, filteringDisabled, servers, accepted, opening, b);
    assert session.thread + [] == session.thread;
    ShutBalances(b, session.bridges, session.thread, []);
  }

  // ---------------------------------------------------------------------------------------------
  // Server names

  /** Names mean the same server exactly when they differ at most in which blank, or underscore, stands where. */
  lemma NamesMeetExactlyWhen(a: string, b: string)
    ensures NormalizeName(a) == NormalizeName(b) <==>
              && |a| == |b|
              && forall i :: 0 <= i < |a| ==>
                   a[i] == b[i] || ((a[i] == '_' || IsWhitespace(a[i])) && (b[i] == '_' || IsWhitespace(b[i])))
  {
    if NormalizeName(a) == NormalizeName(b) {
      forall i | 0 <= i < |a|
        ensures a[i] == b[i] || ((a[i] == '_' || IsWhitespace(a[i])) && (b[i] == '_' || IsWhitespace(b[i])))
      {
        assert NormalizeName(a)[i] == NormalizeName(b)[i];
      }
    }
  }

  // ---------------------------------------------------------------------------------------------
  // The overlay

  /** The server a name stands for, if the client asks for one: the last whose name normalizes to it. */
  ghost function LastFor(servers: seq<Server>, name: string): Option<ServerConfig>
    requires forall s :: s in servers ==> !Fails(s)
  {
    if servers == [] then None
    else
      var last := servers[|servers| - 1];
      if !last.Unsupported? && NormalizeName(last.name) == name then last.config
      else LastFor(servers[..|servers| - 1], name)
  }

  function Lookup(servers: map<string, ServerConfig>, name: string): Option<ServerConfig> {
    if name in servers then Some(servers[name]) else None
  }

  ghost predicate IsOverlay(
      b: map<string, ServerConfig>, configured: map<string, ServerConfig>, filteringDisabled: bool,
      servers: seq<Server>, r: map<string, ServerConfig>)
    requires forall s :: s in servers ==> !Fails(s)
  {
    forall name :: Lookup(r, name)
                   == if Filtered(configured, name, filteringDisabled) || LastFor(servers, name).None? then Lookup(b, name)
                      else LastFor(servers, name)
  }

  lemma {:induction false} LastForCons(s: Server, servers: seq<Server>, name: string)
    requires !Fails(s) && forall t :: t in servers ==> !Fails(t)
    ensures LastFor([s] + servers, name)
         == if LastFor(servers, name).Some? then LastFor(servers, name)
            else if !s.Unsupported? && NormalizeName(s.name) == name then s.config else None
    decreases |servers|
  {
    var all := [s] + servers;
    if servers == [] {
      assert all[..0] == [];
    } else {
      assert all[|all| - 1] == servers[|servers| - 1] && servers[|servers| - 1] in servers;
      assert all[..|all| - 1] == [s] + servers[..|servers| - 1];
      LastForCons(s, servers[..|servers| - 1], name);
    }
  }

  lemma {:induction false} AddAllOverlays(
      configured: map<string, ServerConfig>, filteringDisabled: bool, b: Build, servers: seq<Server>)
    requires forall s :: s in servers ==> !Fails(s)
    ensures var o := AddAll(configured, filteringDisabled, b, servers);
            o.Built? && IsOverlay(b.servers, configured, filteringDisabled, servers, o.build.servers)
    decreases |servers|
  {
    if servers != [] {
      var s, rest := servers[0], servers[1..];
      var b' := Added(configured, filteringDisabled, b, s);
      AddAllOverlays(configured, filteringDisabled, b', rest);
      assert servers == [s] + rest;
      forall name ensures LastFor(servers, name)
                       == if LastFor(rest, name).Some? then LastFor(rest, name)
                          else if !s.Unsupported? && NormalizeName(s.name) == name then s.config else None
      {
        LastForCons(s, rest, name);
      }
    }
  }

  /**
   The servers of an opened session: with filtering on, a configured name keeps its configured server
   and any other name means the last client server normalizing to it; with filtering off the last
   client server wins over the configured one.
   */
  lemma SessionServersAreOverlay(
      configured: map<string, ServerConfig>, filteringDisabled: bool, servers: seq<Server>, accepted: bool,
      opening: Opening, b: Bridges)
    requires OpenSession(configured, filteringDisabled, servers, accepted, opening, b).Opened?
    ensures forall s :: s in servers ==> !Fails(s)
    ensures var r := OpenSession(configured, filteringDisabled, servers, accepted, opening, b).servers;
            forall name :: Lookup(r, name)
                           == if name in configured && (!filteringDisabled || LastFor(servers, name).None?)
                              then Some(configured[name]) else LastFor(servers, name)
  {
    BridgesAreOwnedOrShutOnce(configured, filteringDisabled, servers, accepted, opening, b);
    AddAllOverlays(configured, filteringDisabled, Build(b, configured, []), servers);
  }

  /** A normalized name has no blanks, so no client server means a name that has one. */
  lemma {:induction false} NobodyMeansBlankNames(servers: seq<Server>, name: string)
    requires forall s :: s in servers ==> !Fails(s)
    requires exists c :: c in name && IsWhitespace(c)
    ensures LastFor(servers, name) == None
  {
    if servers != [] {
      var last := servers[|servers| - 1];
      var c :| c in name && IsWhitespace(c);
      assert last.Unsupported? || c !in NormalizeName(last.name);
      NobodyMeansBlankNames(servers[..|servers| - 1], name);
    }
  }

  /** A configured server whose name has a blank keeps it whatever the client asks for, filtered or not. */
  lemma BlankNamesKeepTheirServer(
      configured: map<string, ServerConfig>, filteringDisabled: bool, servers: seq<Server>, accepted: bool,
      opening: Opening, b: Bridges, name: string)
    requires OpenSession(configured, filteringDisabled, servers, accepted, opening, b).Opened?
    requires exists c :: c in name && IsWhitespace(c)
    ensures Lookup(OpenSession(configured, filteringDisabled, servers, accepted, opening, b).servers, name)
         == Lookup(configured, name)
  {
    SessionServersAreOverlay(configured, filteringDisabled, servers, accepted, opening, b);
    NobodyMeansBlankNames(servers, name);
  }

  // ---------------------------------------------------------------------------------------------
  // The program's own loops

  class BridgePool {
    var bridges: Bridges

    constructor ()
      ensures bridges == Bridges(0, [])
    {
      bridges := Bridges(0, []);
    }

    method Start() returns (bridge: Bridge)
      modifies this
      ensures bridge == old(bridges).started && bridges == Started(old(bridges))
    {
      bridge := bridges.started;
      bridges := Started(bridges);
    }

    method Shutdown(bridge: Bridge)
      modifies this
      ensures bridges == Shut(old(bridges), [bridge])
    {
      bridges := Shut(bridges, [bridge]);
    }

    method ShutdownAll(all: seq<Bridge>)
      modifies this
      ensures bridges == Shut(old(bridges), all)
    {
      for i := 0 to |all|
        invariant bridges == Shut(old(bridges), all[..i])
      {
        assert all[..i + 1] == all[..i] + [all[i]];
        Shutdown(all[i]);
      }
      assert all[..|all|] == all;
    }

    /** Starts the bridge of an ACP server; a bridge that cannot be used is shut down at once. */
    method AddAcp(configured: map<string, ServerConfig>, filteringDisabled: bool, s: Server,
                  servers: map<string, ServerConfig>, owned: seq<Bridge>)
      returns (servers': map<string, ServerConfig>, owned': seq<Bridge>, ok: bool)
      requires s.Acp?
      modifies this
      ensures ok <==> !Fails(s)
      ensures ok ==> Build(bridges, servers', owned')
                     == Added(configured, filteringDisabled, Build(old(bridges), servers, owned), s)
      ensures !ok ==> bridges == RolledBack(Build(old(bridges), servers, owned), s)
    {
      servers', owned', ok := servers, owned, false;
      if !s.starts {
        ShutdownAll(owned);
        return;
      }
      var bridge := Start();
      if s.config.None? {
        Shutdown(bridge);
        ShutdownAll(owned);
        return;
      }
      ok := true;
      var name := NormalizeName(s.name);
      if Filtered(configured, name, filteringDisabled) {
        Shutdown(bridge);
      } else {
        servers', owned' := servers[name := s.config.value], owned + [bridge];
      }
    }

    method BuildSessionConfig(
        configured: map<string, ServerConfig>, filteringDisabled: bool, wanted: seq<Server>, accepted: bool)
      returns (r: Option<(map<string, ServerConfig>, seq<Bridge>)>)
      modifies this
      ensures BuildSession(configured, filteringDisabled, wanted, accepted, old(bridges))
           == if r.Some? then Built(Build(bridges, r.value.0, r.value.1)) else Refused(bridges)
    {
      var servers, owned := configured, [];
      ghost var outcome := AddAll(configured, filteringDisabled, Build(bridges, configured, []), wanted);
      for i := 0 to |wanted|
        invariant AddAll(configured, filteringDisabled, Build(bridges, servers, owned), wanted[i..]) == outcome
      {
        var s := wanted[i];
        assert wanted[i..][0] == s && wanted[i..][1..] == wanted[i + 1..];
        match s
        case Acp(_, _, _) =>
          var ok: bool;
          servers, owned, ok := AddAcp(configured, filteringDisabled, s, servers, owned);
          if !ok {
            return None;
          }
        case Direct(name, config) =>
          if config.None? {
            ShutdownAll(owned);
            return None;
          }
          if !Filtered(configured, NormalizeName(name), filteringDisabled) {
            servers := servers[NormalizeName(name) := config.value];
          }
        case Unsupported =>
      }
      if !accepted {
        ShutdownAll(owned);
        return None;
      }
      return Some((servers, owned));
    }
  }

  /** A started thread and the bridges it took over. */
  class Thread {
    const mcpBridges: seq<Bridge>

    constructor (mcpBridges: seq<Bridge>)
      ensures this.mcpBridges == mcpBridges
    {
      this.mcpBridges := mcpBridges;
    }

    /** Releases the bridges whether or not the actor acknowledges. */
    method Shutdown(pool: BridgePool, acknowledged: bool) returns (ok: bool)
      modifies pool
      ensures ok == acknowledged && pool.bridges == Shut(old(pool.bridges), mcpBridges)
    {
      pool.ShutdownAll(mcpBridges);
      ok := acknowledged;
    }
  }

  /** Opens a session the way the new, load, resume and fork requests do; only load replays. */
  method Open(
      pool: BridgePool, configured: map<string, ServerConfig>, filteringDisabled: bool, wanted: seq<Server>,
      accepted: bool, opening: Opening, acknowledged: bool)
    returns (r: Option<Thread>)
    modifies pool
    ensures var session := OpenSession(configured, filteringDisabled, wanted, accepted, opening, old(pool.bridges));
            && pool.bridges == session.bridges
            && (r.Some? <==> session.Opened?)
            && (r.Some? ==> r.value.mcpBridges == session.thread)
  {
    var build := pool.BuildSessionConfig(configured, filteringDisabled, wanted, accepted);
    if build.None? {
      return None;
    }
    if !opening.starts {
      pool.ShutdownAll(build.value.1);
      return None;
    }
    var thread := new Thread(build.value.1);
    if opening.replays == Some(false) || !opening.loads || !opening.inserted {
      var _ := thread.Shutdown(pool, acknowledged);
      return None;
    }
    return Some(thread);
  }
}
