/** The buzz-queue server: three pieces of state shared by every connection
    (whether buzzing is open, the queue of usernames that buzzed, and the
    connection registered as host) and the per-connection message handler.

    Each frame a connection sends is handled as one atomic step: in the
    handler, no branch suspends between testing the state and changing it,
    so under a single-threaded event loop the steps of different
    connections interleave but never overlap. */
module Server {

  type ConnId = nat

  datatype Option<T> = None | Some(value: T)

  /** The three command frames the handler recognises, and the username that
      registers a connection as host. */
  const Buzz: string := "BUZZ"
  const Lock: string := "LOCK"
  const Unlock: string := "UNLOCK"
  const HostName: string := "host"

  /** What one step sends: nothing, a PENALTY frame back to the sender, or the
      current queue to the host connection (the JSON encoding is abstracted). */
  datatype Output = Silent | Penalty(to: ConnId) | QueueToHost(to: ConnId, queue: seq<string>)

  /** The shared state. `buzzOpen` is the source's `buzz_lock` (true means
      buzzing is open); `names` holds the username each connection sent as
      its first frame (a connection absent from it has not sent one yet). */
  datatype State = State(buzzOpen: bool, queue: seq<string>, host: Option<ConnId>, names: map<ConnId, string>)

  /** One frame arriving on one connection. */
  datatype Event = Event(conn: ConnId, frame: string)

  /** The new state and what was sent, after one step or after a run of them. */
  datatype Step = Step(state: State, out: Output)
  datatype Outcome = Outcome(state: State, outs: seq<Output>)

  const Init: State := State(false, [], None, map[])

  predicate NoDup(q: seq<string>)
  {
    forall i, j :: 0 <= i < j < |q| ==> q[i] != q[j]
  }

  /** The state invariant: the queue holds each name at most once, it is empty
      while buzzing is closed, every queued name is some connection's
      username, and the host connection introduced itself as "host". */
  predicate Inv(s: State)
  {
    && NoDup(s.queue)
    && (!s.buzzOpen ==> s.queue == [])
    && (forall x :: x in s.queue ==> x in s.names.Values)
    && (s.host.Some? ==> s.host.value in s.names && s.names[s.host.value] == HostName)
  }

  /** The queue update the host is sent, or nothing when no host is registered. */
  function NotifyHost(s: State): Output
  {
    if s.host.Some? then QueueToHost(s.host.value, s.queue) else Silent
  }

  /** Adding a connection's username keeps every earlier username. */
  lemma UsernamesKept(names: map<ConnId, string>, c: ConnId, username: string)
    requires c !in names
    ensures names.Values + {username} == names[c := username].Values
  {
    forall x | x in names.Values
      ensures x in names[c := username].Values
    {
      var d :| d in names && names[d] == x;
      assert names[c := username][d] == x;
    }
    assert names[c := username][c] == username;
  }

  /** One frame on connection `c`: the first frame is the username; later
      frames are BUZZ, LOCK, UNLOCK or ignored. */
  function Next(s: State, c: ConnId, frame: string): (r: Step)
    ensures Inv(s) ==> Inv(r.state)
    // The first frame is never dispatched as a command.
    ensures c !in s.names ==> r.state.buzzOpen == s.buzzOpen && r.state.queue == s.queue && r.out == Silent
    // Usernames, once given, never change.
    ensures s.names.Keys <= r.state.names.Keys
    ensures forall d :: d in s.names ==> r.state.names[d] == s.names[d]
    // Only a first frame "host" registers a host, and it registers the sender.
    ensures r.state.host != s.host ==> c !in s.names && frame == HostName && r.state.host == Some(c)
    // A PENALTY goes to the sender and changes nothing.
    ensures r.out.Penalty? ==> r.out.to == c && r.state == s
    // The host, and only a registered host, is sent exactly the new queue.
    ensures r.out.QueueToHost? ==> s.host == Some(r.out.to) && r.out.queue == r.state.queue
    // The queue changes only by appending the sender of a BUZZ or by a LOCK emptying it.
    ensures r.state.queue != s.queue ==>
              c in s.names &&
              ((frame == Buzz && r.state.queue == s.queue + [s.names[c]]) || (frame == Lock && r.state.queue == []))
  {
    if c !in s.names then
      UsernamesKept(s.names, c, frame);
      var s' := s.(names := s.names[c := frame],
                   host := if frame == HostName then Some(c) else s.host);
      Step(s', Silent)
    else
      var user := s.names[c];
      if frame == Buzz then
        if s.buzzOpen && user !in s.queue then
          var s' := s.(queue := s.queue + [user]);
          Step(s', NotifyHost(s'))
        else
          Step(s, Penalty(c))
      else if frame == Lock then
        var s' := s.(buzzOpen := false, queue := []);
        Step(s', NotifyHost(s'))
      else if frame == Unlock then
        Step(s.(buzzOpen := true), Silent)
      else
        Step(s, Silent)
  }

  /** The steps of a sequence of frames, in arrival order. */
  function Replay(s: State, t: seq<Event>): (r: Outcome)
    ensures |r.outs| == |t|
    ensures Inv(s) ==> Inv(r.state)
    ensures s.names.Keys <= r.state.names.Keys
    decreases |t|
  {
    if t == [] then Outcome(s, [])
    else
      var st := Next(s, t[0].conn, t[0].frame);
      var rest := Replay(st.state, t[1..]);
      Outcome(rest.state, [st.out] + rest.outs)
  }

  /** Every frame of `frames`, sent on connection `c`. */
  function Frames(c: ConnId, frames: seq<string>): (t: seq<Event>)
    ensures |t| == |frames|
    ensures forall i :: 0 <= i < |t| ==> t[i].conn == c && t[i].frame == frames[i]
  {
    seq(|frames|, i requires 0 <= i < |frames| => Event(c, frames[i]))
  }

  lemma FramesAppend(c: ConnId, frames: seq<string>, m: string)
    ensures Frames(c, frames + [m]) == Frames(c, frames) + [Event(c, m)]
  {
  }

  /** Replaying one more frame is one more step after the replay. */
  lemma {:induction false} ReplayAppend(s: State, t: seq<Event>, e: Event)
    ensures Replay(s, t + [e]).state == Next(Replay(s, t).state, e.conn, e.frame).state
    ensures Replay(s, t + [e]).outs == Replay(s, t).outs + [Next(Replay(s, t).state, e.conn, e.frame).out]
    decreases |t|
  {
    if t == [] {
      assert [] + [e] == [e];
    } else {
      var st := Next(s, t[0].conn, t[0].frame);
      assert (t + [e])[0] == t[0];
      assert (t + [e])[1..] == t[1..] + [e];
      ReplayAppend(st.state, t[1..], e);
    }
  }

  /** Replaying two runs in a row is replaying their concatenation. */
  lemma {:induction false} ReplaySplit(s: State, t: seq<Event>, u: seq<Event>)
    ensures Replay(s, t + u).state == Replay(Replay(s, t).state, u).state
    ensures Replay(s, t + u).outs == Replay(s, t).outs + Replay(Replay(s, t).state, u).outs
    decreases |u|
  {
    if u == [] {
      assert t + u == t;
    } else {
      var u', e := u[..|u| - 1], u[|u| - 1];
      assert u == u' + [e];
      assert t + u == (t + u') + [e];
      ReplaySplit(s, t, u');
      ReplayAppend(s, t + u', e);
      ReplayAppend(Replay(s, t).state, u', e);
    }
  }

  /** A dispatched command: the sender's username and the frame. */
  datatype Command = Command(user: string, msg: string)

  /** The commands a run of frames dispatches: first frames are usernames and
      are not dispatched. */
  function Dispatched(names: map<ConnId, string>, t: seq<Event>): (cmds: seq<Command>)
    ensures |cmds| <= |t|
    decreases |t|
  {
    if t == [] then []
    else if t[0].conn !in names then Dispatched(names[t[0].conn := t[0].frame], t[1..])
    else [Command(names[t[0].conn], t[0].frame)] + Dispatched(names, t[1..])
  }

  /** The senders of the BUZZ commands, in order, repeats included. */
  function Buzzers(cmds: seq<Command>): (b: seq<string>)
    ensures |b| <= |cmds|
  {
    if cmds == [] then []
    else (if cmds[0].msg == Buzz then [cmds[0].user] else []) + Buzzers(cmds[1..])
  }

  /** The position of the first occurrence of `x` in `xs`. */
  function FirstIndex(xs: seq<string>, x: string): (i: nat)
    requires x in xs
    ensures i < |xs| && xs[i] == x && x !in xs[..i]
  {
    if xs[0] == x then 0
    else
      assert x in xs[1..];
      var j := FirstIndex(xs[1..], x);
      assert xs[..j + 1] == [xs[0]] + xs[1..][..j];
      j + 1
  }

  lemma FirstIndexCons(y: string, xs: seq<string>, x: string)
    requires x in xs && x != y
    ensures x in [y] + xs && FirstIndex([y] + xs, x) == FirstIndex(xs, x) + 1
  {
    assert ([y] + xs)[1..] == xs;
  }

  /** `q` is `q0` extended by the names of `b` not in `q0`, each once, in
      the order of their first occurrence in `b`. */
  predicate FirstBuzzOrder(q0: seq<string>, b: seq<string>, q: seq<string>)
  {
    && |q0| <= |q| && q[..|q0|] == q0
    && NoDup(q)
    && (forall x :: x in q ==> x in q0 || x in b)
    && (forall x :: x in b ==> x in q)
    && (forall i :: |q0| <= i < |q| ==> q[i] in b)
    && (forall i, j :: |q0| <= i < j < |q| ==> FirstIndex(b, q[i]) < FirstIndex(b, q[j]))
  }

  /** A BUZZ from a name already queued adds nothing to the expected queue. */
  lemma OrderSkipQueued(q0: seq<string>, u: string, b: seq<string>, q: seq<string>)
    requires u in q0 && FirstBuzzOrder(q0, b, q)
    ensures FirstBuzzOrder(q0, [u] + b, q)
  {
    forall i | |q0| <= i < |q|
      ensures q[i] in b && q[i] != u
    {
      var k :| 0 <= k < |q0| && q0[k] == u;
      assert q[k] == u;
    }
    forall i, j | |q0| <= i < j < |q|
      ensures FirstIndex([u] + b, q[i]) < FirstIndex([u] + b, q[j])
    {
      FirstIndexCons(u, b, q[i]);
      FirstIndexCons(u, b, q[j]);
    }
  }

  /** A BUZZ from a name not yet queued puts it next in the expected queue. */
  lemma OrderAppendNew(q0: seq<string>, u: string, b: seq<string>, q: seq<string>)
    requires u !in q0 && FirstBuzzOrder(q0 + [u], b, q)
    ensures FirstBuzzOrder(q0, [u] + b, q)
  {
    var n := |q0|;
    assert q[..n] == q[..n + 1][..n];
    assert q[n] == u;
    forall i, j | n <= i < j < |q|
      ensures FirstIndex([u] + b, q[i]) < FirstIndex([u] + b, q[j])
    {
      assert q[j] != u;
      if i == n {
        assert FirstIndex([u] + b, q[i]) == 0;
      } else {
        FirstIndexCons(u, b, q[i]);
        FirstIndexCons(u, b, q[j]);
      }
    }
  }

  /** The commands of a run: a first frame is consumed, a later one is the
      first command. */
  lemma DispatchedFirst(names: map<ConnId, string>, t: seq<Event>)
    requires t != []
    ensures t[0].conn !in names ==> Dispatched(names, t) == Dispatched(names[t[0].conn := t[0].frame], t[1..])
    ensures t[0].conn in names ==>
              Dispatched(names, t) == [Command(names[t[0].conn], t[0].frame)] + Dispatched(names, t[1..])
  {
  }

  /** No command of `cmds` is `msg`. */
  predicate NoneIs(cmds: seq<Command>, msg: string)
  {
    forall i :: 0 <= i < |cmds| ==> cmds[i].msg != msg
  }

  /** While buzzing stays open (no LOCK is dispatched), the queue keeps its
      old entries in place and grows by the BUZZ senders not yet in it, each
      once, in the order of their first BUZZ. */
  lemma {:induction false} QueueInFirstBuzzOrder(s: State, t: seq<Event>)
    requires Inv(s) && s.buzzOpen
    requires NoneIs(Dispatched(s.names, t), Lock)
    ensures Replay(s, t).state.buzzOpen
    ensures FirstBuzzOrder(s.queue, Buzzers(Dispatched(s.names, t)), Replay(s, t).state.queue)
    decreases |t|
  {
    if t == [] {
      assert s.queue[..|s.queue|] == s.queue;
    } else {
      var e := t[0];
      var s' := Next(s, e.conn, e.frame).state;
      assert Replay(s, t).state == Replay(s', t[1..]).state;
      DispatchedFirst(s.names, t);
      var cmds := Dispatched(s.names, t);
      var rest := Dispatched(s'.names, t[1..]);
      if e.conn !in s.names {
        QueueInFirstBuzzOrder(s', t[1..]);
      } else {
        var u := s.names[e.conn];
        assert cmds == [Command(u, e.frame)] + rest;
        assert cmds[0].msg != Lock;
        assert NoneIs(rest, Lock) by {
          forall i | 0 <= i < |rest| ensures rest[i].msg != Lock {
            assert cmds[i + 1] == rest[i];
          }
        }
        QueueInFirstBuzzOrder(s', t[1..]);
        var q := Replay(s, t).state.queue;
        assert cmds[1..] == rest;
        if e.frame == Buzz {
          assert Buzzers(cmds) == [u] + Buzzers(rest);
          if u in s.queue {
            OrderSkipQueued(s.queue, u, Buzzers(rest), q);
          } else {
            OrderAppendNew(s.queue, u, Buzzers(rest), q);
          }
        } else {
          assert Buzzers(cmds) == Buzzers(rest);
        }
      }
    }
  }

  /** While buzzing stays closed (no UNLOCK is dispatched), the queue stays
      empty and nothing but a PENALTY or an empty queue is ever sent. */
  lemma {:induction false} ClosedQueueStaysEmpty(s: State, t: seq<Event>)
    requires Inv(s) && !s.buzzOpen
    requires NoneIs(Dispatched(s.names, t), Unlock)
    ensures !Replay(s, t).state.buzzOpen && Replay(s, t).state.queue == []
    ensures forall o :: o in Replay(s, t).outs ==> o.Silent? || o.Penalty? || (o.QueueToHost? && o.queue == [])
    decreases |t|
  {
    if t != [] {
      var e := t[0];
      var s' := Next(s, e.conn, e.frame).state;
      DispatchedFirst(s.names, t);
      if e.conn in s.names {
        var cmds := Dispatched(s.names, t);
        var rest := Dispatched(s'.names, t[1..]);
        assert cmds == [Command(s.names[e.conn], e.frame)] + rest;
        assert cmds[0].msg != Unlock;
        assert NoneIs(rest, Unlock) by {
          forall i | 0 <= i < |rest| ensures rest[i].msg != Unlock {
            assert cmds[i + 1] == rest[i];
          }
        }
      }
      ClosedQueueStaysEmpty(s', t[1..]);
    }
  }

  /** A LOCK empties the queue and closes buzzing from any state, and the
      registered host (if any) is sent the empty queue. */
  lemma LockResets(s: State, c: ConnId)
    requires c in s.names
    ensures Next(s, c, Lock).state == s.(buzzOpen := false, queue := [])
    ensures Next(s, c, Lock).out == if s.host.Some? then QueueToHost(s.host.value, []) else Silent
  {
  }

  /** With buzzing open and the host registered, A's BUZZ then B's BUZZ
      queue [A, B] and send the host [A] and then [A, B]. */
  lemma TwoBuzzesInOrder(m: map<ConnId, string>)
    requires m == map[1 := "A", 2 := "B", 0 := HostName]
    ensures Replay(State(true, [], Some(0), m), [Event(1, Buzz), Event(2, Buzz)])
            == Outcome(State(true, ["A", "B"], Some(0), m), [QueueToHost(0, ["A"]), QueueToHost(0, ["A", "B"])])
  {
    var open := State(true, [], Some(0), m);
    var a := open.(queue := ["A"]);
    var ab := open.(queue := ["A", "B"]);
    assert m[2] == "B" && "B" !in a.queue;
    assert Next(a, 2, Buzz) == Step(ab, QueueToHost(0, ["A", "B"]));
    assert [Event(2, Buzz)][1..] == [];
    assert Replay(a, [Event(2, Buzz)]) == Outcome(ab, [QueueToHost(0, ["A", "B"])]);
    assert Next(open, 1, Buzz) == Step(a, QueueToHost(0, ["A"]));
    assert [Event(1, Buzz), Event(2, Buzz)][1..] == [Event(2, Buzz)];
  }

  /** Players A and B and the host connect and the host opens buzzing:
      nothing is sent, and buzzing is open with an empty queue. */
  lemma ConnectAndUnlock(t: seq<Event>, m: map<ConnId, string>)
    requires t == [Event(1, "A"), Event(2, "B"), Event(0, HostName), Event(0, Unlock)]
    requires m == map[1 := "A", 2 := "B", 0 := HostName]
    ensures Replay(Init, t) == Outcome(State(true, [], Some(0), m), [Silent, Silent, Silent, Silent])
  {
    var s1 := State(false, [], None, map[1 := "A"]);
    var s2 := State(false, [], None, map[1 := "A", 2 := "B"]);
    var s3 := State(false, [], Some(0), m);
    assert Next(s3, 0, Unlock) == Step(s3.(buzzOpen := true), Silent);
    assert Replay(s3, t[3..]) == Outcome(s3.(buzzOpen := true), [Silent]);
    assert Next(s2, 0, HostName) == Step(s3, Silent);
    assert Replay(s2, t[2..]) == Outcome(s3.(buzzOpen := true), [Silent, Silent]);
    assert Next(s1, 2, "B") == Step(s2, Silent);
    assert Replay(s1, t[1..]) == Outcome(s3.(buzzOpen := true), [Silent, Silent, Silent]);
  }

  /** The whole small game: after the host's UNLOCK, A's BUZZ then B's BUZZ
      leave the queue [A, B], and the host is sent [A] and then [A, B]. */
  lemma TwoBuzzesAfterUnlock()
    ensures var t := [Event(1, "A"), Event(2, "B"), Event(0, HostName),
                      Event(0, Unlock), Event(1, Buzz), Event(2, Buzz)];
            && Replay(Init, t).state.queue == ["A", "B"]
            && Replay(Init, t).outs[4..] == [QueueToHost(0, ["A"]), QueueToHost(0, ["A", "B"])]
  {
    var m := map[1 := "A", 2 := "B", 0 := HostName];
    var pre := [Event(1, "A"), Event(2, "B"), Event(0, HostName), Event(0, Unlock)];
    assert pre + [Event(1, Buzz), Event(2, Buzz)] == [Event(1, "A"), Event(2, "B"), Event(0, HostName),
                                                       Event(0, Unlock), Event(1, Buzz), Event(2, Buzz)];
    ConnectAndUnlock(pre, m);
    TwoBuzzesInOrder(m);
    ReplaySplit(Init, pre, [Event(1, Buzz), Event(2, Buzz)]);
  }

  /** The server's shared state, updated in place by each connection's handler. */
  class BuzzServer {
    var buzzOpen: bool
    var queue: seq<string>
    var host: Option<ConnId>
    var names: map<ConnId, string>

    ghost function Abs(): State
      reads this
    {
      State(buzzOpen, queue, host, names)
    }

    ghost predicate Valid()
      reads this
    {
      Inv(Abs())
    }

    /** Buzzing starts closed, the queue empty and no host registered. */
    constructor ()
      ensures Valid() && Abs() == Init
    {
      buzzOpen := false;
      queue := [];
      host := None;
      names := map[];
    }

    /** The first frame of a connection: its username; "host" registers the
        connection as host, replacing any earlier one. */
    method Handshake(c: ConnId, username: string)
      requires Valid() && c !in names
      modifies this
      ensures Valid()
      ensures names == old(names)[c := username]
      ensures host == if username == HostName then Some(c) else old(host)
      ensures buzzOpen == old(buzzOpen) && queue == old(queue)
    {
      UsernamesKept(names, c, username);
      names := names[c := username];
      if username == HostName {
        host := Some(c);
      }
    }

    /** A later frame of connection `c`, dispatched as a command. */
    method Dispatch(c: ConnId, msg: string) returns (out: Output)
      requires Valid() && c in names
      modifies this
      ensures Valid()
      ensures names == old(names) && host == old(host)
      ensures msg == Buzz && old(buzzOpen) && names[c] !in old(queue) ==>
                buzzOpen && queue == old(queue) + [names[c]] && out == NotifyHost(Abs())
      ensures msg == Buzz && !(old(buzzOpen) && names[c] !in old(queue)) ==>
                buzzOpen == old(buzzOpen) && queue == old(queue) && out == Penalty(c)
      ensures msg == Lock ==> !buzzOpen && queue == [] && out == NotifyHost(Abs())
      ensures msg == Unlock ==> buzzOpen && queue == old(queue) && out == Silent
      ensures msg != Buzz && msg != Lock && msg != Unlock ==>
                buzzOpen == old(buzzOpen) && queue == old(queue) && out == Silent
    {
      var user := names[c];
      out := Silent;
      if msg == Buzz {
        if buzzOpen && user !in queue {
          queue := queue + [user];
          if host.Some? {
            out := QueueToHost(host.value, queue);
          }
        } else {
          out := Penalty(c);
        }
      } else if msg == Lock {
        buzzOpen := false;
        queue := [];
        if host.Some? {
          out := QueueToHost(host.value, queue);
        }
      } else if msg == Unlock {
        buzzOpen := true;
      }
    }

    /** One frame on connection `c`, as one atomic step. */
    method Receive(c: ConnId, frame: string) returns (out: Output)
      requires Valid()
      modifies this
      ensures Valid()
      ensures Abs() == Next(old(Abs()), c, frame).state && out == Next(old(Abs()), c, frame).out
    {
      if c !in names {
        Handshake(c, frame);
        out := Silent;
      } else {
        out := Dispatch(c, frame);
      }
    }

    /** A whole connection handled without interleaving: the first frame is
        the username, every later frame is dispatched in turn. */
    method HandleClient(c: ConnId, frames: seq<string>) returns (outs: seq<Output>)
      requires Valid() && c !in names
      modifies this
      ensures Valid()
      ensures Abs() == Replay(old(Abs()), Frames(c, frames)).state
      ensures outs == Replay(old(Abs()), Frames(c, frames)).outs
    {
      outs := [];
      if frames == [] {
        return;
      }
      ghost var s0 := Abs();
      Handshake(c, frames[0]);
      outs := [Silent];
      assert Frames(c, frames[..1]) == [] + [Event(c, frames[0])];
      ReplayAppend(s0, [], Event(c, frames[0]));
      var i := 1;
      while i < |frames|
        invariant 1 <= i <= |frames|
        invariant Valid() && c in names
        invariant Abs() == Replay(s0, Frames(c, frames[..i])).state
        invariant outs == Replay(s0, Frames(c, frames[..i])).outs
      {
        var out := Dispatch(c, frames[i]);
        assert frames[..i + 1] == frames[..i] + [frames[i]];
        FramesAppend(c, frames[..i], frames[i]);
        ReplayAppend(s0, Frames(c, frames[..i]), Event(c, frames[i]));
        outs := outs + [out];
        i := i + 1;
      }
      assert frames[..i] == frames;
    }
  }
}
