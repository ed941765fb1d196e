/** The support chat server, run one step at a time. The server keeps a
    registry from each client connection to the nickname and address it
    announced, relays every line a client sends to all registered clients,
    drops a client whose send fails, and lets an operator list the clients,
    speak to all of them or stop the server.

    Sockets become connection numbers and the network becomes a log of the
    calls the server makes on them (`sendall`, `close`, `shutdown`). Whether
    a send succeeds is not the server's decision: each operation receives
    the set of connections whose `sendall` raises. What a client sends is a
    script of `recv` outcomes. Threads, the lock and the accept loop are not
    modelled: every step below runs alone, and each accepted connection is
    one `HandleClient` call. */
module Servidor {
  import opened Wrappers
  import opened Seqs
  import opened Text

  const Host: string := "127.0.0.1"
  const Port: int := 5050

  /** The identity of a client socket. */
  type Conn = nat

  datatype Addr = Addr(host: string, port: int)

  /** One entry of `clients`: the connection and the `(nickname, addr)`
      stored under it. */
  datatype Entry = Entry(conn: Conn, nickname: string, addr: Addr)

  /** A call the server makes on a socket. */
  datatype NetEvent =
    | Sent(to: Conn, data: string)
    | Closed(conn: Conn)
    | ShutRdWr(conn: Conn)
    | ListenerClosed

  /** The registry, in dictionary insertion order, and everything the server
      has done on the network so far. */
  datatype State = State(clients: seq<Entry>, log: seq<NetEvent>)

  /** `list(clients.keys())` */
  function Keys(clients: seq<Entry>): seq<Conn>
  {
    seq(|clients|, i requires 0 <= i < |clients| => clients[i].conn)
  }

  /** A dictionary holds each key once. */
  ghost predicate UniqueKeys(clients: seq<Entry>)
  {
    forall i, j :: 0 <= i < j < |clients| ==> clients[i].conn != clients[j].conn
  }

  /** `clients.get(c)` */
  function Lookup(clients: seq<Entry>, c: Conn): (r: Option<Entry>)
    ensures r.Some? ==> r.value in clients && r.value.conn == c
    ensures r.None? <==> forall i :: 0 <= i < |clients| ==> clients[i].conn != c
  {
    if clients == [] then None
    else if clients[0].conn == c then Some(clients[0])
    else Lookup(clients[1..], c)
  }

  /** `clients.pop(c, None)`: the entry of `c` goes, the rest stay in order. */
  function Pop(clients: seq<Entry>, c: Conn): (r: seq<Entry>)
    ensures forall i :: 0 <= i < |r| ==> r[i].conn != c && r[i] in clients
    ensures forall i :: 0 <= i < |clients| && clients[i].conn != c ==> clients[i] in r
    ensures Lookup(clients, c).None? ==> r == clients
    ensures |r| < |clients| <==> Lookup(clients, c).Some?
  {
    FilterKeepsAll(clients, (e: Entry) => e.conn != c);
    Filter(clients, (e: Entry) => e.conn != c)
  }

  lemma {:induction false} PopUnique(clients: seq<Entry>, c: Conn)
    requires UniqueKeys(clients)
    ensures UniqueKeys(Pop(clients, c))
  {
    if clients != [] {
      var tail := clients[1..];
      TailUnique(clients);
      PopUnique(tail, c);
      var rest := Pop(tail, c);
      HeadKeyAbsent(clients);
      PopCons(clients, c);
      if clients[0].conn != c {
        ConsUnique(clients[0], rest);
      }
    }
  }

  lemma HeadKeyAbsent(clients: seq<Entry>)
    requires clients != [] && UniqueKeys(clients)
    ensures forall e :: e in clients[1..] ==> e.conn != clients[0].conn
  {
    forall e | e in clients[1..] ensures e.conn != clients[0].conn {
      var j :| 0 <= j < |clients[1..]| && clients[1..][j] == e;
      assert clients[j + 1] == e;
    }
  }

  lemma ConsUnique(h: Entry, rest: seq<Entry>)
    requires UniqueKeys(rest) && forall k :: 0 <= k < |rest| ==> rest[k].conn != h.conn
    ensures UniqueKeys([h] + rest)
  {
    var s := [h] + rest;
    forall i, j | 0 <= i < j < |s| ensures s[i].conn != s[j].conn {
      assert s[j] == rest[j - 1];
      if i > 0 {
        assert s[i] == rest[i - 1];
      }
    }
  }

  lemma TailUnique(clients: seq<Entry>)
    requires clients != [] && UniqueKeys(clients)
    ensures UniqueKeys(clients[1..])
  {
    var tail := clients[1..];
    forall i, j | 0 <= i < j < |tail| ensures tail[i].conn != tail[j].conn {
      assert tail[i] == clients[i + 1] && tail[j] == clients[j + 1];
    }
  }

  lemma PopCons(clients: seq<Entry>, c: Conn)
    requires clients != []
    ensures Pop(clients, c) == (if clients[0].conn != c then [clients[0]] else []) + Pop(clients[1..], c)
  {
  }

  /** `clients[e.conn] = (e.nickname, e.addr)`: a key already present keeps
      its place and takes the new value, a new key goes last. */
  function Put(clients: seq<Entry>, e: Entry): (r: seq<Entry>)
    ensures |r| == |clients| || r == clients + [e]
    ensures forall i :: 0 <= i < |clients| && clients[i].conn != e.conn ==> r[i] == clients[i]
    ensures forall i :: 0 <= i < |r| ==> r[i] == e || r[i] in clients
  {
    if Lookup(clients, e.conn).Some? then
      seq(|clients|, i requires 0 <= i < |clients| => if clients[i].conn == e.conn then e else clients[i])
    else clients + [e]
  }

  /** After the assignment the key maps to the new value, every other key
      keeps its value, and keys stay unique. */
  lemma PutLookup(clients: seq<Entry>, e: Entry, c: Conn)
    requires UniqueKeys(clients)
    ensures UniqueKeys(Put(clients, e))
    ensures Lookup(Put(clients, e), e.conn) == Some(e)
    ensures c != e.conn ==> Lookup(Put(clients, e), c) == Lookup(clients, c)
  {
    var r := Put(clients, e);
    if Lookup(clients, e.conn).Some? {
      var i :| 0 <= i < |clients| && clients[i] == Lookup(clients, e.conn).value;
      assert r[i] == e;
    } else {
      assert r[|clients|] == e;
    }
    LookupUnique(r, e.conn, e);
    if c != e.conn {
      var v := Lookup(clients, c);
      if v.Some? {
        var i :| 0 <= i < |clients| && clients[i] == v.value;
        assert r[i] == v.value;
        LookupUnique(r, c, v.value);
      } else {
        assert forall i :: 0 <= i < |r| ==> r[i].conn != c;
      }
    }
  }

  /** With unique keys, the entry a key finds is the one stored under it. */
  lemma LookupUnique(clients: seq<Entry>, c: Conn, e: Entry)
    requires UniqueKeys(clients) && e in clients && e.conn == c
    ensures Lookup(clients, c) == Some(e)
  {
    var i :| 0 <= i < |clients| && clients[i] == e;
    var v := Lookup(clients, c);
    var j :| 0 <= j < |clients| && clients[j] == v.value;
  }

  /** What `_broadcast` does for one connection of its snapshot: skip the
      excluded one, close a connection whose send raises (it is also
      dropped from the registry), deliver to the others. */
  function Delivery(c: Conn, data: string, exclude: Option<Conn>, failing: set<Conn>): seq<NetEvent>
  {
    if exclude == Some(c) then [] else if c in failing then [Closed(c)] else [Sent(c, data)]
  }

  function Deliveries(conns: seq<Conn>, data: string, exclude: Option<Conn>, failing: set<Conn>): seq<NetEvent>
  {
    if conns == [] then [] else Delivery(conns[0], data, exclude, failing) + Deliveries(conns[1..], data, exclude, failing)
  }

  /** The loop of `_broadcast` over the snapshot `conns`. */
  function Fanout(st: State, conns: seq<Conn>, data: string, exclude: Option<Conn>, failing: set<Conn>): State
    decreases |conns|
  {
    if conns == [] then st
    else
      var c := conns[0];
      var next :=
        if exclude == Some(c) then st
        else if c in failing then State(Pop(st.clients, c), st.log + [Closed(c)])
        else State(st.clients, st.log + [Sent(c, data)]);
      Fanout(next, conns[1..], data, exclude, failing)
  }

  /** `_broadcast(message, exclude)` applied to `st`. */
  function Broadcasted(st: State, message: string, exclude: Option<Conn>, failing: set<Conn>): State
  {
    Fanout(st, Keys(st.clients), message + "\n", exclude, failing)
  }

  /** The network calls of a fan-out are those of its connections, in
      snapshot order; the registry plays no part in them. */
  lemma {:induction false} FanoutLog(st: State, conns: seq<Conn>, data: string, exclude: Option<Conn>, failing: set<Conn>)
    ensures Fanout(st, conns, data, exclude, failing).log == st.log + Deliveries(conns, data, exclude, failing)
    decreases |conns|
  {
    if conns != [] {
      var c := conns[0];
      var next :=
        if exclude == Some(c) then st
        else if c in failing then State(Pop(st.clients, c), st.log + [Closed(c)])
        else State(st.clients, st.log + [Sent(c, data)]);
      FanoutLog(next, conns[1..], data, exclude, failing);
    }
  }

  /** A fan-out drops exactly the snapshot connections that are not
      excluded and whose send raises; every other entry stays. */
  lemma {:induction false} FanoutClients(st: State, conns: seq<Conn>, data: string, exclude: Option<Conn>, failing: set<Conn>, e: Entry)
    ensures e in Fanout(st, conns, data, exclude, failing).clients <==>
      e in st.clients && !(e.conn in conns && e.conn in failing && exclude != Some(e.conn))
    decreases |conns|
  {
    if conns != [] {
      var c := conns[0];
      var next :=
        if exclude == Some(c) then st
        else if c in failing then State(Pop(st.clients, c), st.log + [Closed(c)])
        else State(st.clients, st.log + [Sent(c, data)]);
      FanoutClients(next, conns[1..], data, exclude, failing, e);
      assert conns == [c] + conns[1..];
      if exclude != Some(c) && c in failing && e in st.clients && e.conn != c {
        var i :| 0 <= i < |st.clients| && st.clients[i] == e;
      }
    }
  }

  lemma {:induction false} FanoutUnique(st: State, conns: seq<Conn>, data: string, exclude: Option<Conn>, failing: set<Conn>)
    requires UniqueKeys(st.clients)
    ensures UniqueKeys(Fanout(st, conns, data, exclude, failing).clients)
    decreases |conns|
  {
    if conns != [] {
      var c := conns[0];
      PopUnique(st.clients, c);
      var next :=
        if exclude == Some(c) then st
        else if c in failing then State(Pop(st.clients, c), st.log + [Closed(c)])
        else State(st.clients, st.log + [Sent(c, data)]);
      FanoutUnique(next, conns[1..], data, exclude, failing);
    }
  }

  /** With nothing excluded, every connection of the snapshot gets exactly
      one call, in order: the message followed by one newline, or a close
      when its send raises. */
  lemma {:induction false} DeliveriesEach(conns: seq<Conn>, data: string, failing: set<Conn>)
    ensures |Deliveries(conns, data, None, failing)| == |conns|
    ensures forall i :: 0 <= i < |conns| ==>
      Deliveries(conns, data, None, failing)[i] == if conns[i] in failing then Closed(conns[i]) else Sent(conns[i], data)
  {
    if conns != [] {
      DeliveriesEach(conns[1..], data, failing);
    }
  }

  /** `_broadcast` with nothing excluded: each registered client, in
      registry order, is sent `message + "\n"` or closed, and the registry
      loses exactly those whose send raised. */
  lemma BroadcastEffect(st: State, message: string, failing: set<Conn>, e: Entry)
    ensures Broadcasted(st, message, None, failing).log == st.log + Deliveries(Keys(st.clients), message + "\n", None, failing)
    ensures e in Broadcasted(st, message, None, failing).clients <==> e in st.clients && e.conn !in failing
  {
    FanoutLog(st, Keys(st.clients), message + "\n", None, failing);
    FanoutClients(st, Keys(st.clients), message + "\n", None, failing, e);
    if e in st.clients {
      var i :| 0 <= i < |st.clients| && st.clients[i] == e;
      assert Keys(st.clients)[i] == e.conn;
    }
  }

  function JoinNotice(nick: string): string { "[SISTEMA] " + nick + " se ha unido al chat" }

  function LeaveNotice(nick: string): string { "[SISTEMA] " + nick + " ha salido del chat" }

  function Relayed(nick: string, chunk: string): string { "[" + nick + "] " + RStripNewlines(chunk) }

  /** The `finally` block of `_handle_client`: pop the entry, close the
      socket, and announce the departure only if the entry was still
      there. */
  function Departed(st: State, conn: Conn, failing: set<Conn>): State
  {
    var info := Lookup(st.clients, conn);
    var closed := State(Pop(st.clients, conn), st.log + [Closed(conn)]);
    if info.Some? then Broadcasted(closed, LeaveNotice(info.value.nickname), None, failing)
    else closed
  }

  /** The departure notice goes out exactly when the connection was still
      registered, to the remaining clients and never to the leaving one;
      otherwise only the socket is closed. */
  lemma DepartureNotice(st: State, conn: Conn, failing: set<Conn>)
    ensures Lookup(st.clients, conn).None? ==> Departed(st, conn, failing) == State(st.clients, st.log + [Closed(conn)])
    ensures Lookup(st.clients, conn).Some? ==>
      Departed(st, conn, failing).log == st.log + [Closed(conn)] +
        Deliveries(Keys(Pop(st.clients, conn)), LeaveNotice(Lookup(st.clients, conn).value.nickname) + "\n", None, failing)
    ensures conn !in Keys(Pop(st.clients, conn))
    ensures Lookup(Departed(st, conn, failing).clients, conn).None?
  {
    var closed := State(Pop(st.clients, conn), st.log + [Closed(conn)]);
    var info := Lookup(st.clients, conn);
    if info.Some? {
      var notice := LeaveNotice(info.value.nickname);
      FanoutLog(closed, Keys(closed.clients), notice + "\n", None, failing);
      var r := Departed(st, conn, failing);
      forall i | 0 <= i < |r.clients| ensures r.clients[i].conn != conn {
        FanoutClients(closed, Keys(closed.clients), notice + "\n", None, failing, r.clients[i]);
      }
    }
  }

  /** Cleaning up the same connection twice sends one departure notice:
      the second time the entry is gone and only the close is repeated. */
  lemma DepartureOnce(st: State, conn: Conn, failing: set<Conn>, failing2: set<Conn>)
    ensures Departed(Departed(st, conn, failing), conn, failing2) ==
      State(Departed(st, conn, failing).clients, Departed(st, conn, failing).log + [Closed(conn)])
  {
    DepartureNotice(st, conn, failing);
    DepartureNotice(Departed(st, conn, failing), conn, failing2);
  }

  /** One `recv` outcome: the bytes received (empty once the peer has
      closed its end) or an exception (timeout, reset, closed socket). */
  datatype Recv = Chunk(text: string) | Raised

  /** The relay loop of `_handle_client` from state `st`: it ends when the
      server stops, the peer closes, `recv` raises (as it does on a socket
      that a failed broadcast has already closed), or the script runs out,
      which is the peer closing. */
  function Chat(st: State, stopped: bool, conn: Conn, nick: string, script: seq<Recv>, failing: set<Conn>): State
    decreases |script|
  {
    if stopped || script == [] || script[0] == Raised || script[0] == Chunk("") || Lookup(st.clients, conn).None? then
      Departed(st, conn, failing)
    else
      Chat(Broadcasted(st, Relayed(nick, script[0].text), None, failing), stopped, conn, nick, script[1..], failing)
  }

  /** `_handle_client(conn, addr)` from state `st`. */
  function Session(st: State, stopped: bool, conn: Conn, addr: Addr, script: seq<Recv>, failing: set<Conn>): State
  {
    if script == [] || script[0] == Chunk("") then
      Departed(State(st.clients, st.log + [Closed(conn)]), conn, failing)
    else if script[0] == Raised then
      Departed(st, conn, failing)
    else
      var nick := Strip(script[0].text);
      var joined := State(Put(st.clients, Entry(conn, nick, addr)), st.log);
      Chat(Broadcasted(joined, JoinNotice(nick), None, failing), stopped, conn, nick, script[1..], failing)
  }

  /** A client whose first `recv` raises (the ten-second handshake timeout,
      a reset) never enters the registry and causes no broadcast: its
      socket is closed once, on cleanup. */
  lemma RaisedHandshake(st: State, stopped: bool, conn: Conn, addr: Addr, script: seq<Recv>, failing: set<Conn>)
    requires Lookup(st.clients, conn).None?
    requires script != [] && script[0] == Raised
    ensures Session(st, stopped, conn, addr, script, failing) == State(st.clients, st.log + [Closed(conn)])
  {
    DepartureNotice(st, conn, failing);
  }

  /** A client that closes before sending a nickname never enters the
      registry and causes no broadcast: its socket is just closed, once in
      the handshake and once more on cleanup. */
  lemma EmptyHandshake(st: State, stopped: bool, conn: Conn, addr: Addr, script: seq<Recv>, failing: set<Conn>)
    requires Lookup(st.clients, conn).None?
    requires script == [] || script[0] == Chunk("")
    ensures Session(st, stopped, conn, addr, script, failing) == State(st.clients, st.log + [Closed(conn), Closed(conn)])
  {
    DepartureNotice(State(st.clients, st.log + [Closed(conn)]), conn, failing);
  }

  /** A client "bob" joins a registry holding "ana", says one line and
      closes: both hear the join notice and the line, then only ana hears
      the departure, and the registry is back to ana alone. */
  lemma SessionExample()
    ensures var ana := Entry(7, "ana", Addr(Host, 40000));
      Session(State([ana], []), false, 9, Addr(Host, 40001), [Chunk(" bob\n"), Chunk("hola\n")], {}) ==
      State([ana], [
        Sent(7, "[SISTEMA] bob se ha unido al chat\n"), Sent(9, "[SISTEMA] bob se ha unido al chat\n"),
        Sent(7, "[bob] hola\n"), Sent(9, "[bob] hola\n"),
        Closed(9), Sent(7, "[SISTEMA] bob ha salido del chat\n")])
  {
    var ana := Entry(7, "ana", Addr(Host, 40000));
    var bob := Entry(9, "bob", Addr(Host, 40001));
    ExampleNick();
    ExampleTexts();
    assert Put([ana], bob) == [ana, bob];
    var greeted := State([ana, bob], [Sent(7, JoinNotice("bob") + "\n"), Sent(9, JoinNotice("bob") + "\n")]);
    BroadcastToPair(ana, bob, [], JoinNotice("bob"));
    var relayed := State([ana, bob], greeted.log + [Sent(7, Relayed("bob", "hola\n") + "\n"), Sent(9, Relayed("bob", "hola\n") + "\n")]);
    BroadcastToPair(ana, bob, greeted.log, Relayed("bob", "hola\n"));
    LeavePair(ana, bob, relayed.log);
    assert Chat(greeted, false, 9, "bob", [Chunk("hola\n")], {}) == Departed(relayed, 9, {});
    var script := [Chunk(" bob\n"), Chunk("hola\n")];
    assert script[1..] == [Chunk("hola\n")] && script[0].text == " bob\n";
    assert Broadcasted(State(Put([ana], bob), []), JoinNotice("bob"), None, {}) == greeted;
    assert Session(State([ana], []), false, 9, Addr(Host, 40001), script, {}) == Chat(greeted, false, 9, "bob", script[1..], {});
  }

  lemma ExampleNick()
    ensures Strip(" bob\n") == "bob"
  {
    assert IsSpace('\n') && !IsSpace('b') && IsSpace(' ');
    assert " bob\n"[..4] == " bob" && " bob"[1..] == "bob";
    assert TrimEnd(" bob", IsSpace) == " bob";
    assert TrimEnd(" bob\n", IsSpace) == " bob";
    assert TrimStart("bob", IsSpace) == "bob";
    assert TrimStart(" bob", IsSpace) == "bob";
  }

  lemma ExampleTexts()
    ensures JoinNotice("bob") + "\n" == "[SISTEMA] bob se ha unido al chat\n"
    ensures Relayed("bob", "hola\n") + "\n" == "[bob] hola\n"
    ensures LeaveNotice("bob") + "\n" == "[SISTEMA] bob ha salido del chat\n"
  {
    assert "hola\n"[..4] == "hola";
    assert RStripNewlines("hola\n") == "hola";
  }

  /** A broadcast with no failing send to a registry of two. */
  lemma BroadcastToPair(a: Entry, b: Entry, log: seq<NetEvent>, message: string)
    ensures Broadcasted(State([a, b], log), message, None, {}) ==
      State([a, b], log + [Sent(a.conn, message + "\n"), Sent(b.conn, message + "\n")])
  {
    var data := message + "\n";
    assert Keys([a, b]) == [a.conn, b.conn];
    assert [a.conn, b.conn][1..] == [b.conn] && [b.conn][1..] == [];
    var one := State([a, b], log + [Sent(a.conn, data)]);
    assert Fanout(one, [b.conn], data, None, {}) == State([a, b], one.log + [Sent(b.conn, data)]);
    assert Fanout(State([a, b], log), [a.conn, b.conn], data, None, {}) == Fanout(one, [b.conn], data, None, {});
  }

  /** The second of two clients leaves; no send fails. */
  lemma LeavePair(a: Entry, b: Entry, log: seq<NetEvent>)
    requires a.conn != b.conn
    ensures Departed(State([a, b], log), b.conn, {}) ==
      State([a], log + [Closed(b.conn), Sent(a.conn, LeaveNotice(b.nickname) + "\n")])
  {
    assert Lookup([a, b], b.conn) == Some(b) by {
      assert [a, b][1..] == [b];
    }
    var popped := Pop([a, b], b.conn);
    assert popped[0] == a;
    assert popped == [a];
    assert Keys([a]) == [a.conn] && [a.conn][1..] == [];
    var closed := State([a], log + [Closed(b.conn)]);
    assert Fanout(closed, [a.conn], LeaveNotice(b.nickname) + "\n", None, {}) ==
      State([a], closed.log + [Sent(a.conn, LeaveNotice(b.nickname) + "\n")]);
  }

  /** The relay loop only removes entries, and its own entry is gone when it
      ends. */
  lemma {:induction false} ChatShrinks(st: State, stopped: bool, conn: Conn, nick: string, script: seq<Recv>, failing: set<Conn>, e: Entry)
    requires UniqueKeys(st.clients)
    ensures UniqueKeys(Chat(st, stopped, conn, nick, script, failing).clients)
    ensures Lookup(Chat(st, stopped, conn, nick, script, failing).clients, conn).None?
    ensures e in Chat(st, stopped, conn, nick, script, failing).clients ==> e in st.clients
    decreases |script|
  {
    if stopped || script == [] || script[0] == Raised || script[0] == Chunk("") || Lookup(st.clients, conn).None? {
      DepartedShrinks(st, conn, failing, e);
    } else {
      var next := Broadcasted(st, Relayed(nick, script[0].text), None, failing);
      BroadcastEffect(st, Relayed(nick, script[0].text), failing, e);
      FanoutUnique(st, Keys(st.clients), Relayed(nick, script[0].text) + "\n", None, failing);
      ChatShrinks(next, stopped, conn, nick, script[1..], failing, e);
    }
  }

  lemma DepartedShrinks(st: State, conn: Conn, failing: set<Conn>, e: Entry)
    requires UniqueKeys(st.clients)
    ensures UniqueKeys(Departed(st, conn, failing).clients)
    ensures Lookup(Departed(st, conn, failing).clients, conn).None?
    ensures e in Departed(st, conn, failing).clients ==> e in st.clients
  {
    DepartureNotice(st, conn, failing);
    PopUnique(st.clients, conn);
    var closed := State(Pop(st.clients, conn), st.log + [Closed(conn)]);
    BroadcastEffect(closed, "", failing, e);
    if Lookup(st.clients, conn).Some? {
      var notice := LeaveNotice(Lookup(st.clients, conn).value.nickname);
      BroadcastEffect(closed, notice, failing, e);
      FanoutUnique(closed, Keys(closed.clients), notice + "\n", None, failing);
      if e in Departed(st, conn, failing).clients {
        var i :| 0 <= i < |closed.clients| && closed.clients[i] == e;
      }
    }
  }

  /** Whatever a client does, when its session ends the registry holds no
      entry for it and no entry that was not there before: a session only
      ever removes clients other than itself (by failed sends). */
  lemma SessionLeavesRegistry(st: State, stopped: bool, conn: Conn, addr: Addr, script: seq<Recv>, failing: set<Conn>, e: Entry)
    requires UniqueKeys(st.clients)
    ensures UniqueKeys(Session(st, stopped, conn, addr, script, failing).clients)
    ensures Lookup(Session(st, stopped, conn, addr, script, failing).clients, conn).None?
    ensures e in Session(st, stopped, conn, addr, script, failing).clients ==> e in st.clients
  {
    if script == [] || script[0] == Chunk("") {
      DepartedShrinks(State(st.clients, st.log + [Closed(conn)]), conn, failing, e);
    } else if script[0] == Raised {
      DepartedShrinks(st, conn, failing, e);
    } else {
      var nick := Strip(script[0].text);
      var me := Entry(conn, nick, addr);
      var joined := State(Put(st.clients, me), st.log);
      PutLookup(st.clients, me, conn);
      var notice := JoinNotice(nick);
      var greeted := Broadcasted(joined, notice, None, failing);
      FanoutUnique(joined, Keys(joined.clients), notice + "\n", None, failing);
      BroadcastEffect(joined, notice, failing, e);
      ChatShrinks(greeted, stopped, conn, nick, script[1..], failing, e);
      if e in Session(st, stopped, conn, addr, script, failing).clients {
        assert e in joined.clients;
        if e.conn == conn {
          LookupUnique(Session(st, stopped, conn, addr, script, failing).clients, conn, e);
        }
      }
    }
  }

  /** An operator command, read from one console line. */
  datatype Command = ListUsers | Quit | Blank | Say(line: string)

  /** How `_operator_loop` reads one line: the trailing newlines go, then
      the stripped text is compared with the two commands. */
  function Classify(raw: string): Command
  {
    var line := RStripNewlines(raw);
    if Strip(line) == "/usuarios" then ListUsers
    else if Strip(line) == "/salir" then Quit
    else if Strip(line) != "" then Say(line)
    else Blank
  }

  /** A line is a command when its stripped text is one, a blank line is
      ignored, and anything else is spoken with its inner and leading
      spacing kept. */
  lemma ClassifyMeaning(raw: string)
    ensures Classify(raw) == ListUsers <==> Strip(raw) == "/usuarios"
    ensures Classify(raw) == Quit <==> Strip(raw) == "/salir"
    ensures Classify(raw) == Blank <==> Strip(raw) == ""
    ensures Classify(raw).Say? ==> Classify(raw).line == RStripNewlines(raw)
  {
    StripNewlines(raw);
  }

  function Nicknames(clients: seq<Entry>): seq<string>
  {
    seq(|clients|, i requires 0 <= i < |clients| => clients[i].nickname)
  }

  /** `", ".join(nicknames) or "(ninguno)"` */
  function Roster(clients: seq<Entry>): string
  {
    var joined := Join(Nicknames(clients), ", ");
    if joined == "" then "(ninguno)" else joined
  }

  /** The roster shows "(ninguno)" for an empty registry, and also for a
      registry whose only client chose an empty nickname; any other
      registry is listed by its nicknames. */
  lemma RosterNone(clients: seq<Entry>)
    ensures Join(Nicknames(clients), ", ") == "" <==> |clients| == 0 || (|clients| == 1 && clients[0].nickname == "")
    ensures |clients| == 0 ==> Roster(clients) == "(ninguno)"
    ensures |clients| >= 2 ==> Roster(clients) == Join(Nicknames(clients), ", ")
  {
    if |clients| >= 2 {
      JoinLong(Nicknames(clients), ", ");
    }
  }

  lemma JoinLong(parts: seq<string>, sep: string)
    requires |parts| >= 2
    ensures |Join(parts, sep)| >= |sep|
  {
  }

  /** The state after the operator's command: only spoken lines act. */
  function Obey(st: State, c: Command, failing: set<Conn>): State
  {
    if c.Say? then Broadcasted(st, "[SOPORTE] " + c.line, None, failing) else st
  }

  /** The line `/usuarios` prints. */
  function Report(clients: seq<Entry>): string
  {
    "[INFO] Conectados: " + Roster(clients)
  }

  /** What the operator's command prints: the roster for `/usuarios`. */
  function Listing(st: State, c: Command): seq<string>
  {
    if c == ListUsers then [Report(st.clients)] else []
  }

  /** The commands a sequence of console lines reads as. */
  function Commands(lines: seq<string>): seq<Command>
  {
    seq(|lines|, i requires 0 <= i < |lines| => Classify(lines[i]))
  }

  /** The operator loop over the commands read from the console, from
      `st`: the new state and the listings printed for `/usuarios`. */
  function Operated(st: State, cmds: seq<Command>, failing: set<Conn>): (State, seq<string>)
    decreases |cmds|
  {
    if cmds == [] || cmds[0] == Quit then (st, [])
    else
      var rest := Operated(Obey(st, cmds[0], failing), cmds[1..], failing);
      (rest.0, Listing(st, cmds[0]) + rest.1)
  }

  /** `/salir` ends the loop: the lines after it are never read. */
  lemma {:induction false} QuitStops(st: State, before: seq<Command>, after: seq<Command>, failing: set<Conn>)
    requires Quit !in before
    ensures Operated(st, before + [Quit] + after, failing) == Operated(st, before, failing)
    decreases |before|
  {
    var cmds := before + [Quit] + after;
    if before != [] {
      assert cmds[0] == before[0];
      assert cmds[1..] == before[1..] + [Quit] + after;
      QuitStops(Obey(st, before[0], failing), before[1..], after, failing);
    } else {
      assert cmds[0] == Quit;
    }
  }

  /** The operator loop's bookkeeping across one command that is not
      `/salir`. */
  lemma OperatedAdvance(st: State, st': State, cmds: seq<Command>, i: nat, prev: seq<string>, listings: seq<string>, failing: set<Conn>)
    requires i < |cmds| && cmds[i] != Quit
    requires st' == Obey(st, cmds[i], failing)
    requires listings == prev + Listing(st, cmds[i])
    ensures Operated(st', cmds[i + 1..], failing).0 == Operated(st, cmds[i..], failing).0
    ensures listings + Operated(st', cmds[i + 1..], failing).1 == prev + Operated(st, cmds[i..], failing).1
  {
    assert cmds[i..][0] == cmds[i] && cmds[i..][1..] == cmds[i + 1..];
  }

  /** Only spoken lines reach the network: listing the users, blank lines
      and `/salir` leave the registry and the log as they were. */
  lemma {:induction false} SilentOperator(st: State, cmds: seq<Command>, failing: set<Conn>)
    requires forall i :: 0 <= i < |cmds| ==> !cmds[i].Say?
    ensures Operated(st, cmds, failing).0 == st
    decreases |cmds|
  {
    if cmds != [] && cmds[0] != Quit {
      SilentOperator(st, cmds[1..], failing);
    }
  }

  /** Each `/usuarios` before the first `/salir` prints one listing. */
  lemma {:induction false} ListingsCount(st: State, cmds: seq<Command>, failing: set<Conn>)
    requires Quit !in cmds
    ensures |Operated(st, cmds, failing).1| == multiset(cmds)[ListUsers]
    decreases |cmds|
  {
    if cmds != [] {
      var next := Obey(st, cmds[0], failing);
      ListingsCount(next, cmds[1..], failing);
      assert Operated(st, cmds, failing).1 == Listing(st, cmds[0]) + Operated(next, cmds[1..], failing).1;
      ListingSize(st, cmds[0]);
      assert cmds == [cmds[0]] + cmds[1..];
      assert multiset(cmds) == multiset([cmds[0]]) + multiset(cmds[1..]);
    }
  }

  lemma ListingSize(st: State, c: Command)
    ensures |Listing(st, c)| == multiset([c])[ListUsers]
  {
  }

  /** What `shutdown` adds after its notice: for each connection still
      registered, a `shutdown(SHUT_RDWR)` and a `close`. */
  function Closing(conns: seq<Conn>): seq<NetEvent>
  {
    if conns == [] then [] else Closing(conns[..|conns| - 1]) + [ShutRdWr(conns[|conns| - 1]), Closed(conns[|conns| - 1])]
  }

  /** `shutdown()` from `st`, with the listening socket open or not. */
  function ShutDown(st: State, listening: bool, failing: set<Conn>): State
  {
    var notified := Broadcasted(st, "[SOPORTE] Servidor cerrándose", None, failing);
    State([], notified.log + (if listening then [ListenerClosed] else []) + Closing(Keys(notified.clients)))
  }

  /** Shutting down twice is shutting down once: the second call finds no
      client and no listening socket, and does nothing on the network. */
  lemma ShutDownIdempotent(st: State, listening: bool, failing: set<Conn>, failing2: set<Conn>)
    ensures ShutDown(ShutDown(st, listening, failing), false, failing2) == ShutDown(st, listening, failing)
  {
    var once := ShutDown(st, listening, failing);
    assert Keys(once.clients) == [];
  }

  /** Every client still registered when `shutdown` starts is either closed
      by the failed notice or shut down and closed afterwards. */
  lemma ShutDownClosesAll(st: State, listening: bool, failing: set<Conn>, e: Entry)
    requires e in st.clients
    ensures Closed(e.conn) in ShutDown(st, listening, failing).log
  {
    var notice := "[SOPORTE] Servidor cerrándose";
    var notified := Broadcasted(st, notice, None, failing);
    BroadcastEffect(st, notice, failing, e);
    var i :| 0 <= i < |st.clients| && st.clients[i] == e;
    DeliveriesEach(Keys(st.clients), notice + "\n", failing);
    if e.conn in failing {
      var d := Deliveries(Keys(st.clients), notice + "\n", None, failing);
      assert d[i] == Closed(e.conn);
      assert notified.log[|st.log| + i] == Closed(e.conn);
    } else {
      var j :| 0 <= j < |notified.clients| && notified.clients[j] == e;
      ClosingEach(Keys(notified.clients), j);
    }
  }

  lemma {:induction false} ClosingEach(conns: seq<Conn>, j: nat)
    requires j < |conns|
    ensures Closed(conns[j]) in Closing(conns)
  {
    if j < |conns| - 1 {
      ClosingEach(conns[..|conns| - 1], j);
    }
  }

  /** How far `start` gets before its `try` block fails, if it does. */
  datatype Startup = Listening | SocketFails | BindFails

  class SupportServer {
    const host: string
    const port: int
    var serverSock: Option<Addr>
    var clients: seq<Entry>
    var stopped: bool
    var log: seq<NetEvent>

    ghost predicate Valid()
      reads this
    {
      UniqueKeys(clients)
    }

    function Snapshot(): State
      reads this
    {
      State(clients, log)
    }

    constructor (host: string, port: int)
      ensures Valid()
      ensures this.host == host && this.port == port
      ensures serverSock == None && clients == [] && !stopped && log == []
    {
      this.host := host;
      this.port := port;
      serverSock := None;
      clients := [];
      stopped := false;
      log := [];
    }

    /** `_broadcast(message, exclude)` */
    method Broadcast(message: string, exclude: Option<Conn>, failing: set<Conn>)
      requires Valid()
      modifies this`clients, this`log
      ensures Valid()
      ensures Snapshot() == Broadcasted(old(Snapshot()), message, exclude, failing)
    {
      var data := message + "\n";
      var conns := Keys(clients);
      ghost var start := Snapshot();
      var i := 0;
      while i < |conns|
        invariant 0 <= i <= |conns|
        invariant Valid()
        invariant Fanout(Snapshot(), conns[i..], data, exclude, failing) == Fanout(start, conns, data, exclude, failing)
      {
        var c := conns[i];
        assert conns[i..][0] == c && conns[i..][1..] == conns[i + 1..];
        if exclude != Some(c) {
          if c in failing {
            log := log + [Closed(c)];
            PopUnique(clients, c);
            clients := Pop(clients, c);
          } else {
            log := log + [Sent(c, data)];
          }
        }
        i := i + 1;
      }
    }

    /** The `finally` block of `_handle_client`. */
    method Cleanup(conn: Conn, failing: set<Conn>)
      requires Valid()
      modifies this`clients, this`log
      ensures Valid()
      ensures Snapshot() == Departed(old(Snapshot()), conn, failing)
    {
      var info := Lookup(clients, conn);
      PopUnique(clients, conn);
      clients := Pop(clients, conn);
      log := log + [Closed(conn)];
      if info.Some? {
        Broadcast(LeaveNotice(info.value.nickname), None, failing);
      }
    }

    /** `_handle_client(conn, addr)` for a client whose `recv` calls return
        `script` in turn. */
    method HandleClient(conn: Conn, addr: Addr, script: seq<Recv>, failing: set<Conn>)
      requires Valid()
      modifies this`clients, this`log
      ensures Valid()
      ensures Snapshot() == Session(old(Snapshot()), stopped, conn, addr, script, failing)
    {
      ghost var target := Session(Snapshot(), stopped, conn, addr, script, failing);
      var first := if script == [] then Chunk("") else script[0];
      if first == Chunk("") {
        log := log + [Closed(conn)];
        Cleanup(conn, failing);
        return;
      }
      if first == Raised {
        Cleanup(conn, failing);
        return;
      }
      var nick := Strip(first.text);
      PutLookup(clients, Entry(conn, nick, addr), conn);
      clients := Put(clients, Entry(conn, nick, addr));
      Broadcast(JoinNotice(nick), None, failing);
      var k := 1;
      while !stopped
        invariant 1 <= k <= |script|
        invariant Valid()
        invariant Chat(Snapshot(), stopped, conn, nick, script[k..], failing) == target
        decreases |script| - k
      {
        var data := if k < |script| then script[k] else Chunk("");
        if data == Raised || Lookup(clients, conn).None? || data.text == "" {
          break;
        }
        assert script[k..][0] == data && script[k..][1..] == script[k + 1..];
        Broadcast(Relayed(nick, data.text), None, failing);
        k := k + 1;
      }
      assert Chat(Snapshot(), stopped, conn, nick, script[k..], failing) == Departed(Snapshot(), conn, failing);
      Cleanup(conn, failing);
    }

    /** `_operator_loop` over the console lines, ending, whichever way it
        ends, in `shutdown`. */
    method OperatorLoop(lines: seq<string>, failing: set<Conn>) returns (listings: seq<string>)
      requires Valid()
      modifies this
      ensures Valid() && stopped && serverSock == None && clients == []
      ensures Snapshot() == ShutDown(Operated(old(Snapshot()), Commands(lines), failing).0, old(serverSock).Some?, failing)
      ensures listings == Operated(old(Snapshot()), Commands(lines), failing).1
    {
      ghost var cmds := Commands(lines);
      ghost var target := Operated(Snapshot(), cmds, failing);
      listings := [];
      var i := 0;
      assert cmds[i..] == cmds;
      while i < |lines|
        invariant 0 <= i <= |lines|
        invariant Valid()
        invariant serverSock == old(serverSock)
        invariant Operated(Snapshot(), cmds[i..], failing).0 == target.0
        invariant listings + Operated(Snapshot(), cmds[i..], failing).1 == target.1
      {
        var command := Classify(lines[i]);
        assert command == cmds[i] == cmds[i..][0];
        if command == Quit {
          break;
        }
        ghost var prev := listings;
        ghost var before := Snapshot();
        if command == ListUsers {
          listings := listings + [Report(clients)];
        } else if command.Say? {
          Broadcast("[SOPORTE] " + command.line, None, failing);
        }
        OperatedAdvance(before, Snapshot(), cmds, i, prev, listings, failing);
        i := i + 1;
      }
      assert Operated(Snapshot(), cmds[i..], failing) == (Snapshot(), []);
      Shutdown(failing);
    }

    /** `shutdown()` */
    method Shutdown(failing: set<Conn>)
      requires Valid()
      modifies this
      ensures Valid() && stopped && serverSock == None && clients == []
      ensures Snapshot() == ShutDown(old(Snapshot()), old(serverSock).Some?, failing)
    {
      stopped := true;
      Broadcast("[SOPORTE] Servidor cerrándose", None, failing);
      if serverSock.Some? {
        log := log + [ListenerClosed];
        serverSock := None;
      }
      var conns := Keys(clients);
      ghost var before := log;
      var i := 0;
      while i < |conns|
        invariant 0 <= i <= |conns|
        invariant log == before + Closing(conns[..i])
        invariant Keys(clients) == conns && serverSock == None && stopped
      {
        log := log + [ShutRdWr(conns[i]), Closed(conns[i])];
        assert conns[..i + 1][..i] == conns[..i];
        i := i + 1;
      }
      assert conns[..i] == conns;
      clients := [];
    }

    /** `start()`: open the listening socket, then run the operator loop.
        When creating, binding or listening fails the socket is closed if
        one was made, `server_sock` is reset and the exception propagates
        (`raised`). */
    method Start(startup: Startup, lines: seq<string>, failing: set<Conn>) returns (raised: bool, listings: seq<string>)
      requires Valid()
      modifies this
      ensures Valid()
      ensures raised <==> startup != Listening
      ensures raised ==> serverSock == None && clients == old(clients) && stopped == old(stopped) && listings == []
      ensures startup == SocketFails ==> log == old(log) + (if old(serverSock).Some? then [ListenerClosed] else [])
      ensures startup == BindFails ==> log == old(log) + [ListenerClosed]
      ensures !raised ==> stopped && serverSock == None && clients == []
      ensures !raised ==> Snapshot() == ShutDown(Operated(old(Snapshot()), Commands(lines), failing).0, true, failing)
      ensures !raised ==> listings == Operated(old(Snapshot()), Commands(lines), failing).1
    {
      listings := [];
      if startup == SocketFails {
        if serverSock.Some? {
          log := log + [ListenerClosed];
        }
        serverSock := None;
        raised := true;
        return;
      }
      serverSock := Some(Addr(host, port));
      if startup == BindFails {
        log := log + [ListenerClosed];
        serverSock := None;
        raised := true;
        return;
      }
      raised := false;
      listings := OperatorLoop(lines, failing);
    }
  }

  /** `main()`: a server on the default address; a failed start exits with
      status 1, a normal stop with status 0. */
  method ServerMain(startup: Startup, lines: seq<string>, failing: set<Conn>) returns (status: int)
    ensures status == if startup == Listening then 0 else 1
  {
    var srv := new SupportServer(Host, Port);
    var raised, listings := srv.Start(startup, lines, failing);
    status := if raised then 1 else 0;
  }
}
