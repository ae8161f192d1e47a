/** The host client talking to the server on one connection, with no other
    connection active: what the server's state becomes after each frame of
    the client's log. */
module Session {
  import Server
  import Host

  /** The frames the server receives from a host client whose log is `log`:
      the client sends no identity first, so its first frame is taken as its
      username. */
  function AsWrittenSession(c: Server.ConnId, log: seq<string>): (t: seq<Server.Event>)
    ensures |t| == |log|
  {
    Server.Frames(c, log)
  }

  /** The same client introducing itself as "host" before its first frame,
      as the server expects of a host. */
  function IdentifiedSession(c: Server.ConnId, log: seq<string>): (t: seq<Server.Event>)
    ensures |t| == |log| + 1 && t[0] == Server.Event(c, Server.HostName)
  {
    Server.Frames(c, [Server.HostName] + log)
  }

  /** What the server has after an as-written host session with log `log`. */
  predicate AsWrittenView(c: Server.ConnId, log: seq<string>, r: Server.Outcome)
  {
    && (log != [] ==> r.state.names == map[c := log[0]])
    && (log == [] ==> r.state == Server.Init)
    && r.state.host == Server.None
    && r.state.queue == []
    && (|Host.Toggles(log)| > 0 ==> r.state.buzzOpen == !Host.LockedAfter(log))
    && (forall i :: 0 <= i < |r.outs| ==> r.outs[i] == Server.Silent)
  }

  /** One more frame of the as-written session keeps the view. */
  lemma AsWrittenExtend(c: Server.ConnId, p: seq<string>, m: string, rp: Server.Outcome)
    requires Host.HostLog(p + [m]) && AsWrittenView(c, p, rp)
    ensures var st := Server.Next(rp.state, c, m);
            AsWrittenView(c, p + [m], Server.Outcome(st.state, rp.outs + [st.out]))
  {
    var log := p + [m];
    assert m == log[|p|];
    assert m == Host.Lock || m == Host.Unlock || m == Host.Clear;
    Host.TogglesAppend(p, m);
    if m != Host.Clear {
      Host.LastToggle(p, m);
    }
    if p != [] {
      assert log[0] == p[0];
      TogglerStep(rp.state, c, m);
    }
  }

  /** As written: the first frame (normally the first LOCK) becomes the
      username, the connection is never registered as host and is never sent
      anything; still, once the client has toggled, its `locked` flag is the
      negation of the server's open flag. */
  lemma {:induction false} AsWrittenHostNeverRegistered(c: Server.ConnId, log: seq<string>)
    requires Host.HostLog(log)
    ensures AsWrittenView(c, log, Server.Replay(Server.Init, AsWrittenSession(c, log)))
    decreases |log|
  {
    if log != [] {
      var p, m := log[..|log| - 1], log[|log| - 1];
      assert log == p + [m];
      Host.HostLogPrefix(p, m);
      AsWrittenHostNeverRegistered(c, p);
      var t := AsWrittenSession(c, p);
      assert AsWrittenSession(c, log) == t + [Server.Event(c, m)] by {
        Server.FramesAppend(c, p, m);
      }
      Server.ReplayAppend(Server.Init, t, Server.Event(c, m));
      AsWrittenExtend(c, p, m, Server.Replay(Server.Init, t));
    }
  }

  /** What the server has after an identified host session with log `log`. */
  predicate IdentifiedView(c: Server.ConnId, log: seq<string>, r: Server.Outcome)
  {
    && r.state.names == map[c := Server.HostName]
    && r.state.host == Server.Some(c)
    && r.state.queue == []
    && (|Host.Toggles(log)| > 0 ==> r.state.buzzOpen == !Host.LockedAfter(log))
    && |r.outs| == |log| + 1
    && r.outs[0] == Server.Silent
    && (forall i :: 0 <= i < |log| ==>
          r.outs[i + 1] == if log[i] == Host.Lock then Server.QueueToHost(c, []) else Server.Silent)
  }

  /** One more frame of the identified session keeps the view. */
  lemma IdentifiedExtend(c: Server.ConnId, p: seq<string>, m: string, rp: Server.Outcome)
    requires Host.HostLog(p + [m]) && IdentifiedView(c, p, rp)
    ensures var st := Server.Next(rp.state, c, m);
            IdentifiedView(c, p + [m], Server.Outcome(st.state, rp.outs + [st.out]))
  {
    var log := p + [m];
    assert m == log[|p|];
    assert m == Host.Lock || m == Host.Unlock || m == Host.Clear;
    Host.TogglesAppend(p, m);
    if m != Host.Clear {
      Host.LastToggle(p, m);
    }
    var st := Server.Next(rp.state, c, m);
    var outs := rp.outs + [st.out];
    forall i | 0 <= i < |log|
      ensures outs[i + 1] == if log[i] == Host.Lock then Server.QueueToHost(c, []) else Server.Silent
    {
      if i < |p| {
        assert log[i] == p[i];
      }
    }
  }

  /** The identity frame alone registers the host and sends nothing. */
  lemma IdentifiedHello(c: Server.ConnId)
    ensures IdentifiedView(c, [], Server.Replay(Server.Init, IdentifiedSession(c, [])))
  {
    var hello := [Server.HostName];
    assert hello + [] == hello;
    assert Server.Frames(c, hello) == [] + [Server.Event(c, Server.HostName)];
    Server.ReplayAppend(Server.Init, [], Server.Event(c, Server.HostName));
  }

  /** Corrected: a host client that first sends "host" is registered as host,
      its `locked` flag is the negation of the server's open flag once it has
      toggled, and each LOCK it sends comes back to it as the (empty) queue. */
  lemma {:induction false} IdentifiedHostTracksServer(c: Server.ConnId, log: seq<string>)
    requires Host.HostLog(log)
    ensures IdentifiedView(c, log, Server.Replay(Server.Init, IdentifiedSession(c, log)))
    decreases |log|
  {
    var hello := [Server.HostName];
    if log == [] {
      IdentifiedHello(c);
    } else {
      var p, m := log[..|log| - 1], log[|log| - 1];
      assert log == p + [m];
      Host.HostLogPrefix(p, m);
      IdentifiedHostTracksServer(c, p);
      var t := IdentifiedSession(c, p);
      assert IdentifiedSession(c, log) == t + [Server.Event(c, m)] by {
        assert hello + log == (hello + p) + [m];
        Server.FramesAppend(c, hello + p, m);
      }
      Server.ReplayAppend(Server.Init, t, Server.Event(c, m));
      IdentifiedExtend(c, p, m, Server.Replay(Server.Init, t));
    }
  }

  /** On the server, a LOCK, UNLOCK or CLEAR from a named connection while no
      host is registered and the queue is empty sends nothing; LOCK closes
      buzzing and UNLOCK opens it. */
  lemma TogglerStep(s: Server.State, c: Server.ConnId, m: string)
    requires c in s.names && s.host == Server.None && s.queue == []
    requires m == Host.Lock || m == Host.Unlock || m == Host.Clear
    ensures Server.Next(s, c, m).out == Server.Silent
    ensures Server.Next(s, c, m).state ==
              s.(buzzOpen := if m == Host.Lock then false else if m == Host.Unlock then true else s.buzzOpen)
  {
  }

  /** The discrepancy on a concrete input: the host client presses its
      buzzer key once; the server stores "LOCK" as its username and
      registers no host. */
  lemma FirstToggleBecomesUsername()
    ensures var r := Server.Replay(Server.Init, AsWrittenSession(0, [Host.Lock]));
            r.state.names == map[0 := "LOCK"] && r.state.host == Server.None
  {
    assert Host.Toggles([Host.Lock]) == [Host.Lock];
    AsWrittenHostNeverRegistered(0, [Host.Lock]);
  }
}
