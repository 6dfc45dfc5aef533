/** The hub as an object: a channel of commands and the set of connections its goroutine owns. */
module HubObject {
  import opened Domain
  import opened Wire
  import Hub

  class Conn {
    const id: Hub.ConnId
    var open: bool
    var written: seq<Msg>

    constructor (id: Hub.ConnId)
      ensures this.id == id && open && written == []
    {
      this.id, open, written := id, true, [];
    }

    /** Fails without an effect once the connection is closed. */
    method WriteMessage(m: Msg) returns (ok: bool)
      modifies this`written
      ensures ok == open && written == if open then old(written) + [m] else old(written)
    {
      ok := open;
      if open {
        written := written + [m];
      }
    }
  }

  datatype Command = AddConn(conn: Conn) | RemoveConn(conn: Conn) | BroadcastMsg(msg: Msg)

  function CmdOf(cmd: Command): Hub.Cmd {
    match cmd
    case AddConn(conn) => Hub.Add(conn.id)
    case RemoveConn(conn) => Hub.Remove(conn.id)
    case BroadcastMsg(msg) => Hub.Broadcast(msg)
  }

  function CmdsOf(ch: seq<Command>): seq<Hub.Cmd> {
    seq(|ch|, i requires 0 <= i < |ch| => CmdOf(ch[i]))
  }

  function IdsOf(conns: set<Conn>): set<Hub.ConnId> {
    set conn | conn in conns :: conn.id
  }

  /** The connections a command names. */
  function Named(cmd: Command): set<Conn> {
    if cmd.BroadcastMsg? then {} else {cmd.conn}
  }

  /** One whole command at once: what the goroutine's loop body comes to. */
  function RunOne(h: Hub.State): Hub.State {
    var t := Hub.Take(h);
    if t.busy.Some? then t.(busy := Some(t.busy.value.(left := {}))) else t
  }

  function WriteAll(h: Hub.State, order: seq<Hub.ConnId>): Hub.State {
    if order == [] then h
    else
      var before := WriteAll(h, order[..|order| - 1]); var c := order[|order| - 1];
      if Hub.Owes(before, c) then Hub.WriteTo(before, c) else before
  }

  /** In whatever order the connections are written, taking a command and writing to each of them
      comes to RunOne. */
  lemma {:induction false} WritesInAnyOrder(h: Hub.State, order: seq<Hub.ConnId>)
    ensures var t := WriteAll(h, order);
            t == h.(busy := t.busy) && t.busy.Some? == h.busy.Some?
    ensures h.busy.Some? ==>
        WriteAll(h, order).busy.value == h.busy.value.(left := h.busy.value.left - set c | c in order)
  {
    if order != [] {
      var front, c := order[..|order| - 1], order[|order| - 1];
      WritesInAnyOrder(h, front);
      assert order == front + [c];
    }
  }

  lemma RunOneIsTakeAndWrites(h: Hub.State, order: seq<Hub.ConnId>)
    requires Hub.Take(h).busy.Some? ==> forall c | c in Hub.Take(h).busy.value.left :: c in order
    ensures RunOne(h) == WriteAll(Hub.Take(h), order)
  {
    WritesInAnyOrder(Hub.Take(h), order);
    assert Hub.Take(h).busy.Some? ==> Hub.Take(h).busy.value.left - (set c | c in order) == {};
  }

  /** Different connections have different ids. */
  ghost predicate Distinct(conns: set<Conn>) {
    forall a, b | a in conns && b in conns && a.id == b.id :: a == b
  }

  lemma IdsOfChanged(conns: set<Conn>, conn: Conn)
    requires Distinct(conns + {conn})
    ensures IdsOf(conns + {conn}) == IdsOf(conns) + {conn.id}
    ensures IdsOf(conns - {conn}) == IdsOf(conns) - {conn.id}
  {
    forall c | c in IdsOf(conns) - {conn.id} ensures c in IdsOf(conns - {conn}) {
      var a :| a in conns && a.id == c;
      assert a in conns - {conn};
    }
    forall c | c in IdsOf(conns) + {conn.id} ensures c in IdsOf(conns + {conn}) {
      var a :| a in conns + {conn} && a.id == c;
    }
  }

  class HubLoop {
    var ch: seq<Command>
    var connections: set<Conn>
    ghost var busy: Option<Hub.Delivery>
    ghost var log: seq<Hub.Cmd>
    ghost var done: nat
    ghost var submitted: nat
    ghost var dropped: nat
    ghost var known: set<Conn>

    ghost predicate Valid()
      reads this
    {
      && Distinct(known)
      && connections <= known
      && forall cmd | cmd in ch :: Named(cmd) <= known
    }

    ghost function View(): Hub.State
      reads this
    {
      Hub.State(CmdsOf(ch), IdsOf(connections), busy, log, done, submitted, dropped)
    }

    constructor ()
      ensures Valid() && View() == Hub.Init() && known == {}
    {
      ch, connections, busy, log, done, submitted, dropped, known := [], {}, None, [], 0, 0, 0, {};
    }

    /** Waits until the channel has room. */
    method Add(conn: Conn)
      requires Valid() && Hub.HasRoom(View()) && Distinct(known + {conn})
      modifies this
      ensures Valid() && View() == Hub.Enqueue(old(View()), Hub.Add(conn.id)) && known == old(known) + {conn}
    {
      known := known + {conn};
      Send(AddConn(conn));
    }

    method Remove(conn: Conn)
      requires Valid() && conn in known
      modifies this
      ensures Valid() && View() == Hub.Leave(old(View()), conn.id) && known == old(known)
    {
      if |ch| < Hub.HUB_CAPACITY {
        Send(RemoveConn(conn));
      }
    }

    method Broadcast(msg: Msg)
      requires Valid()
      modifies this
      ensures Valid() && View() == Hub.Submit(old(View()), msg) && known == old(known)
    {
      submitted := submitted + 1;
      if |ch| < Hub.HUB_CAPACITY {
        Send(BroadcastMsg(msg));
      } else {
        dropped := dropped + 1;
      }
    }

    method Send(cmd: Command)
      requires Valid() && Named(cmd) <= known
      modifies this`ch, this`log
      ensures Valid() && View() == Hub.Enqueue(old(View()), CmdOf(cmd))
    {
      ch := ch + [cmd];
      log := log + [CmdOf(cmd)];
      assert CmdsOf(ch) == CmdsOf(old(ch)) + [CmdOf(cmd)];
    }

    /** One iteration of the goroutine's loop: it comes to RunOne, and a broadcast reaches exactly
        the open connections of the set, once each. */
    method RunCommand()
      requires Valid() && Hub.Idle(View()) && ch != []
      modifies this, connections`written
      ensures Valid() && View() == RunOne(old(View())) && known == old(known)
      ensures forall conn | conn in known ::
                conn.written == if old(ch[0]).BroadcastMsg? && conn in old(connections) && conn.open
                                then old(conn.written) + [old(ch[0]).msg] else old(conn.written)
    {
      var cmd := ch[0];
      assert CmdsOf(ch)[1..] == CmdsOf(ch[1..]) && Named(cmd) <= known && Distinct(connections + Named(cmd));
      ch, done, busy := ch[1..], done + 1, None;
      match cmd {
        case AddConn(conn) =>
          IdsOfChanged(connections, conn);
          connections := connections + {conn};
        case RemoveConn(conn) =>
          IdsOfChanged(connections, conn);
          connections := connections - {conn};
        case BroadcastMsg(msg) =>
          busy := Some(Hub.Delivery(msg, IdsOf(connections)));
          WriteToAll(msg);
      }
    }

    /** The range over the map: any order. */
    method WriteToAll(msg: Msg)
      requires Valid() && busy == Some(Hub.Delivery(msg, IdsOf(connections)))
      modifies this`busy, connections`written
      ensures Valid() && busy == Some(Hub.Delivery(msg, {}))
      ensures forall conn | conn in known ::
                conn.written == if conn in connections && conn.open then old(conn.written) + [msg]
                    else old(conn.written)
    {
      var left := connections;
      while left != {}
        invariant left <= connections && busy == Some(Hub.Delivery(msg, IdsOf(left)))
        invariant forall conn | conn in known ::
                    conn.written == if conn in connections - left && conn.open then old(conn.written) + [msg]
                        else old(conn.written)
        decreases left
      {
        var conn :| conn in left;
        IdsOfChanged(left, conn);
        var _ := conn.WriteMessage(msg);
        left := left - {conn};
        busy := Some(Hub.Delivery(msg, IdsOf(left)));
      }
      assert IdsOf({}) == {};
    }
  }
}
