/** The host's terminal client: one flag, `locked`, that the buzzer key
    toggles, and the frames it sends to the server. The socket is not
    modelled; a ghost log `sent` records every frame the client sends. */
module Host {

  const Lock: string := "LOCK"
  const Unlock: string := "UNLOCK"
  const Clear: string := "CLEAR"

  /** The toggle frames of a send log, in order: every frame but CLEAR. */
  function Toggles(log: seq<string>): (r: seq<string>)
    ensures |r| <= |log|
    ensures forall i :: 0 <= i < |r| ==> r[i] != Clear && r[i] in log
  {
    if log == [] then []
    else (if log[0] == Clear then [] else [log[0]]) + Toggles(log[1..])
  }

  /** Sending one more frame adds it to the toggles unless it is CLEAR. */
  lemma {:induction false} TogglesAppend(log: seq<string>, m: string)
    ensures Toggles(log + [m]) == Toggles(log) + (if m == Clear then [] else [m])
  {
    if log == [] {
      assert [] + [m] == [m];
    } else {
      assert (log + [m])[0] == log[0];
      assert (log + [m])[1..] == log[1..] + [m];
      TogglesAppend(log[1..], m);
    }
  }

  /** LOCK, UNLOCK, LOCK, ...: what a fresh client's toggles send. */
  predicate Alternating(xs: seq<string>)
  {
    forall i :: 0 <= i < |xs| ==> xs[i] == if i % 2 == 0 then Lock else Unlock
  }

  /** A log a fresh client can have sent: only LOCK, UNLOCK and CLEAR
      frames, the toggles alternating from LOCK. */
  predicate HostLog(log: seq<string>)
  {
    && (forall i :: 0 <= i < |log| ==> log[i] == Lock || log[i] == Unlock || log[i] == Clear)
    && Alternating(Toggles(log))
  }

  /** Whether the client believes buzzing is locked after sending `log`:
      after an odd number of toggles. */
  function LockedAfter(log: seq<string>): bool
  {
    |Toggles(log)| % 2 == 1
  }

  /** Every prefix of a client's log is one too. */
  lemma HostLogPrefix(log: seq<string>, m: string)
    requires HostLog(log + [m])
    ensures HostLog(log)
  {
    TogglesAppend(log, m);
    assert forall i :: 0 <= i < |log| ==> log[i] == (log + [m])[i];
    assert forall i :: 0 <= i < |Toggles(log)| ==> Toggles(log)[i] == Toggles(log + [m])[i];
  }

  /** The last frame of a client's log, when it is a toggle, is LOCK exactly
      when the client now believes buzzing is locked. */
  lemma {:induction false} LastToggle(log: seq<string>, m: string)
    requires HostLog(log + [m]) && m != Clear
    ensures m == Lock <==> LockedAfter(log + [m])
    ensures LockedAfter(log + [m]) == !LockedAfter(log)
  {
    TogglesAppend(log, m);
    var k := |Toggles(log)|;
    assert Toggles(log + [m])[k] == m;
  }

  class HostClient {
    var locked: bool
    ghost var sent: seq<string>

    /** The log is a client's log and `locked` records its toggle parity. */
    ghost predicate Valid()
      reads this
    {
      HostLog(sent) && locked == LockedAfter(sent)
    }

    /** A new client has sent nothing and believes buzzing is unlocked. */
    constructor ()
      ensures Valid() && !locked && sent == []
    {
      locked := false;
      sent := [];
    }

    /** Sends UNLOCK when locked and LOCK when not, then flips the flag. */
    method ToggleBuzzer()
      requires Valid()
      modifies this
      ensures Valid()
      ensures sent == old(sent) + [if old(locked) then Unlock else Lock]
      ensures locked == !old(locked)
    {
      var m: string;
      if locked {
        m := Unlock;
      } else {
        m := Lock;
      }
      TogglesAppend(sent, m);
      ghost var k := |Toggles(sent)|;
      sent := sent + [m];
      locked := !locked;
      assert Toggles(sent) == Toggles(old(sent)) + [m];
      forall i | 0 <= i < |Toggles(sent)|
        ensures Toggles(sent)[i] == if i % 2 == 0 then Lock else Unlock
      {
        if i < k {
          assert Toggles(sent)[i] == Toggles(old(sent))[i];
        }
      }
    }

    /** Sends CLEAR; the flag is unchanged. The reply it then waits for is
        not modelled. */
    method ClearBuzzes()
      requires Valid()
      modifies this
      ensures Valid()
      ensures sent == old(sent) + [Clear]
      ensures locked == old(locked)
    {
      TogglesAppend(sent, Clear);
      sent := sent + [Clear];
    }
  }

  /** Two toggles in a row restore the flag and send one LOCK and one UNLOCK,
      UNLOCK first when the client started locked. */
  method ToggleTwice(h: HostClient)
    requires h.Valid()
    modifies h
    ensures h.Valid() && h.locked == old(h.locked)
    ensures h.sent == old(h.sent) + (if old(h.locked) then [Unlock, Lock] else [Lock, Unlock])
  {
    h.ToggleBuzzer();
    h.ToggleBuzzer();
  }
}
