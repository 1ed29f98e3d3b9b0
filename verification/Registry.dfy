/**
 The messenger's table of connections, with lazy deletion
 (hardware_async/HwMessenger.h 340-381, 403-430, 485-497; hardware_async/HwMessenger.cc 553-600, 697-742, 785-806).
 */
module Registry {
  import opened Wrappers

  /** A connection: its identity and its peer's address. */
  datatype Conn = Conn(id: nat, peerAddr: nat)

  const REAP_DEAD_CONNECTION_THRESHOLD := 5

  class HwMessenger {
    const myAddr: nat
    const localConnection: Conn
    var conns: map<nat, Conn>
    var acceptingConns: set<Conn>
    var deletedConns: set<Conn>
    /** The reap handler has been queued. */
    var reapQueued: bool
    /** The connections whose state is CLOSED, which is for good: those that have ever unregistered. */
    var dead: set<Conn>

    /**
     Every entry is under its own peer's address; a dead connection that is still in the table is also
     among the deleted ones, which is how the table knows.
     */
    ghost predicate Valid()
      reads this
    {
      && (forall a | a in conns :: conns[a].peerAddr == a)
      && deletedConns <= dead
      && (forall a | a in conns && conns[a] in dead :: conns[a] in deletedConns)
    }

    ghost predicate Registered(c: Conn)
      reads this
    {
      c.peerAddr in conns && conns[c.peerAddr] == c
    }

    constructor (myAddr: nat, localConnection: Conn)
      ensures this.myAddr == myAddr && this.localConnection == localConnection
      ensures Valid() && conns == map[] && acceptingConns == {} && deletedConns == {} && dead == {} && !reapQueued
    {
      this.myAddr, this.localConnection := myAddr, localConnection;
      conns, acceptingConns, deletedConns, dead, reapQueued := map[], {}, {}, {}, false;
    }

    /**
     Finds the connection at an address unless it is waiting to be reaped; then the entry goes. Nothing
     else changes. Under the invariant: finds the live connection if there is one, and never a dead one.
     */
    method LookupConn(k: nat) returns (r: Option<Conn>)
      modifies this`conns, this`deletedConns
      ensures old(Valid()) ==> Valid() && (r.Some? <==> k in old(conns) && old(conns)[k] !in dead)
      ensures r == if k in old(conns) && old(conns)[k] !in old(deletedConns) then Some(old(conns)[k]) else None
      ensures conns == if r.None? then old(conns) - {k} else old(conns)
      ensures deletedConns == if r.None? && k in old(conns) then old(deletedConns) - {old(conns)[k]}
              else old(deletedConns)
    {
      if k !in conns {
        assert conns == conns - {k};
        return None;
      }
      var p := conns[k];
      if p in deletedConns {
        deletedConns := deletedConns - {p};
        conns := conns - {k};
        return None;
      }
      r := Some(p);
    }

    /** A connection made by us is registered at once; its caller has looked the address up under the same lock. */
    method CreateConnect(conn: Conn)
      requires Valid() && conn.peerAddr !in conns && conn !in dead
      modifies this`conns
      ensures Valid() && conns == old(conns)[conn.peerAddr := conn]
    {
      conns := conns[conn.peerAddr := conn];
    }

    /** For the messenger's own address the loopback connection; else the existing live connection, or a new one. */
    method GetConnection(addr: nat, newId: nat) returns (conn: Conn)
      requires Valid() && Conn(newId, addr) !in dead
      modifies this`conns, this`deletedConns
      ensures Valid()
      ensures addr == myAddr ==> conn == localConnection && conns == old(conns) && deletedConns == old(deletedConns)
      ensures addr != myAddr ==>
                && Registered(conn) && conn !in dead && conn.peerAddr == addr
                && conn == (if addr in old(conns) && old(conns)[addr] !in dead then old(conns)[addr]
                    else Conn(newId, addr))
                && conns == old(conns)[addr := conn]
    {
      if myAddr == addr {
        return localConnection;
      }
      var p := LookupConn(addr);
      if p.Some? {
        conn := p.value;
      } else {
        conn := Conn(newId, addr);
        CreateConnect(conn);
      }
    }

    method AddAccept(conn: Conn)
      requires Valid()
      modifies this`acceptingConns
      ensures Valid() && acceptingConns == old(acceptingConns) + {conn}
    {
      acceptingConns := acceptingConns + {conn};
    }

    /**
     Refuses exactly when a different live connection holds the address. Otherwise conn has the address
     alone. The table keeps its invariant exactly when conn is alive, or is dead but waiting to be
     reaped and not yet in the table: a conn that died before the call and was reaped, or that is its
     own dead entry, becomes an entry nobody will ever remove.
     */
    method AcceptConn(conn: Conn) returns (r: int)
      requires Valid()
      modifies this`conns, this`deletedConns, this`acceptingConns
      ensures r == 0 || r == -1
      ensures r == -1 <==>
                conn.peerAddr in old(conns) && old(conns)[conn.peerAddr] != conn && old(conns)[conn.peerAddr] !in dead
      ensures r == -1 ==>
                conns == old(conns) && deletedConns == old(deletedConns) && acceptingConns == old(acceptingConns)
      ensures r == 0 ==>
                && conns == old(conns)[conn.peerAddr := conn] && acceptingConns == old(acceptingConns) - {conn}
                && deletedConns == if conn.peerAddr in old(conns) then old(deletedConns) - {old(conns)[conn.peerAddr]}
                                   else old(deletedConns)
      ensures Valid() <==> r == -1 || conn !in dead || (conn in old(deletedConns) && !old(Registered(conn)))
    {
      if conn.peerAddr in conns {
        var existing := conns[conn.peerAddr];
        if existing in deletedConns {
          deletedConns := deletedConns - {existing};
          conns := conns - {conn.peerAddr};
        } else if conn != existing {
          return -1;
        }
      }
      conns := conns[conn.peerAddr := conn];
      acceptingConns := acceptingConns - {conn};
      assert conns[conn.peerAddr] == conn;
      r := 0;
    }

    /** A closing connection only queues itself; from five on the reaper is called. */
    method UnregisterConn(conn: Conn)
      requires Valid()
      modifies this`deletedConns, this`reapQueued, this`dead
      ensures Valid() && deletedConns == old(deletedConns) + {conn} && dead == old(dead) + {conn}
      ensures reapQueued <==> old(reapQueued) || |deletedConns| >= REAP_DEAD_CONNECTION_THRESHOLD
    {
      deletedConns, dead := deletedConns + {conn}, dead + {conn};
      if |deletedConns| >= REAP_DEAD_CONNECTION_THRESHOLD {
        reapQueued := true;
      }
    }

    /**
     Purges every dead connection from all the tables, and keeps every live one, including one that
     has meanwhile taken a dead one's address.
     */
    method ReapDead() returns (num: nat)
      requires Valid()
      modifies this`conns, this`deletedConns, this`acceptingConns
      ensures Valid() && deletedConns == {} && num == |old(deletedConns)|
      ensures conns == map a | a in old(conns) && old(conns)[a] !in dead :: old(conns)[a]
      ensures acceptingConns == old(acceptingConns) - old(deletedConns)
      ensures forall a | a in conns :: conns[a] !in dead
    {
      num := 0;
      while deletedConns != {}
        invariant deletedConns <= old(deletedConns) && num == |old(deletedConns)| - |deletedConns|
        invariant conns == map a
                    | a in old(conns) && (old(conns)[a] !in old(deletedConns) || old(conns)[a] in deletedConns)
                    :: old(conns)[a]
        invariant acceptingConns == old(acceptingConns) - (old(deletedConns) - deletedConns)
        decreases |deletedConns|
      {
        var p :| p in deletedConns;
        if p.peerAddr in conns && conns[p.peerAddr] == p {
          conns := conns - {p.peerAddr};
        }
        acceptingConns := acceptingConns - {p};
        deletedConns := deletedConns - {p};
        num := num + 1;
      }
    }

    /** `_stop`: a connection closes, and unregisters, once. */
    method Stop(conn: Conn)
      requires Valid()
      modifies this`deletedConns, this`reapQueued, this`dead
      ensures Valid() && dead == old(dead) + {conn}
      ensures deletedConns == old(deletedConns) + if conn in old(dead) then {} else {conn}
    {
      if conn in dead {
        return;
      }
      UnregisterConn(conn);
    }

    method StopAccepting()
      requires Valid()
      modifies this`deletedConns, this`reapQueued, this`dead, this`acceptingConns
      ensures Valid() && acceptingConns == {} && dead == old(dead) + old(acceptingConns)
    {
      hide Valid;
      var todo := acceptingConns;
      while todo != {}
        invariant Valid() && todo <= acceptingConns == old(acceptingConns)
        invariant dead == old(dead) + (acceptingConns - todo)
        decreases |todo|
      {
        var p :| p in todo;
        todo := todo - {p};
        Stop(p);
      }
      DropAccepting();
    }

    method DropAccepting()
      requires Valid()
      modifies this`acceptingConns
      ensures Valid() && acceptingConns == {}
    {
      acceptingConns := {};
    }

    method StopRegistered()
      requires Valid()
      modifies this`conns, this`deletedConns, this`reapQueued, this`dead
      ensures Valid() && conns == map[] && dead == old(dead) + old(conns.Values)
    {
      while conns != map[]
        invariant Valid() && dead + conns.Values == old(dead) + old(conns.Values)
        decreases |conns.Keys|
      {
        var a :| a in conns;
        var p := conns[a];
        ValuesWithout(conns, a);
        conns := conns - {a};
        Stop(p);
      }
    }

    /** Every connection the messenger knows ends up closed, and all three tables end up empty. */
    method ShutdownConnections()
      requires Valid()
      modifies this
      ensures Valid() && conns == map[] && acceptingConns == {} && deletedConns == {}
      ensures dead == old(dead) + old(acceptingConns) + old(conns.Values)
    {
      StopAccepting();
      StopRegistered();
      while deletedConns != {}
        invariant deletedConns <= dead
        decreases |deletedConns|
        modifies this`deletedConns
      {
        var p :| p in deletedConns;
        deletedConns := deletedConns - {p};
      }
    }

    lemma ValuesWithout(m: map<nat, Conn>, a: nat)
      requires a in m && forall b | b in m :: m[b].peerAddr == b
      ensures (m - {a}).Values == m.Values - {m[a]} && m[a] in m.Values
      ensures |(m - {a}).Keys| < |m.Keys|
    {
      var t := m - {a};
      forall c
        ensures c in t.Values <==> c in m.Values && c != m[a]
      {
        if c in m.Values && c != m[a] {
          assert c.peerAddr in m && m[c.peerAddr] == c;
          assert c.peerAddr in t && t[c.peerAddr] == c;
        }
      }
      assert t.Keys == m.Keys - {a};
      assert |t.Keys| == |m.Keys| - 1;
    }
  }

  /**
   The gap is reachable: a connection being accepted is stopped and reaped before it gets to
   `accept_conn`; from then on a lookup of its address hands out the dead connection.
   */
  method StaleEntry(addr: nat) returns (found: Option<Conn>, dead: set<Conn>)
    ensures found.Some? && found.value in dead && found.value.peerAddr == addr
  {
    var msgr := new HwMessenger(0, Conn(0, 0));
    var conn := Conn(7, addr);
    msgr.AddAccept(conn);
    msgr.Stop(conn);
    var _ := msgr.ReapDead();
    var r := msgr.AcceptConn(conn);
    found := msgr.LookupConn(addr);
    dead := msgr.dead;
  }
}
