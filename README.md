# Buzzer game server and host client, modelled in Dafny

The system is a quiz-show buzzer. Many player connections and one host
connection talk to a single websocket server. The server keeps three pieces
of shared state:

- whether buzzing is open (`buzz_lock`; despite its name, `True` means open);
- the buzz queue, the usernames that buzzed, in arrival order;
- the connection registered as host.

A connection's first frame is its username, and the username `host`
registers it as host. Every later frame is dispatched:

- `BUZZ` queues the sender if buzzing is open and the sender is not already
  queued. Otherwise it answers `PENALTY`.
- `LOCK` closes buzzing and empties the queue.
- `UNLOCK` opens buzzing.
- Any other frame is ignored.

After an admitted `BUZZ` or a `LOCK`, the registered host is sent the queue.
The host's terminal client toggles a `locked` flag with its buzzer key. It
sends `LOCK` or `UNLOCK` to match, and `CLEAR` on another key.

Files:

- `server.dfy` (module `Server`): the state as a value (`State`) with its
  invariant `Inv`. One frame is one atomic step (`Next`), and `Replay` runs
  any interleaving of frames from many connections. Lemmas over whole runs
  state the queue's order and its behaviour while buzzing is closed.
  `BuzzServer` is the in-place version: a class whose fields are the shared
  globals. Its methods are proved against `Next` and `Replay`, and
  `HandleClient` is the per-connection receive loop.
- `host.dfy` (module `Host`): the class `HostClient`, with its `locked` flag
  and a ghost log `sent` of the frames it sent. Its invariant: the toggles in
  the log alternate `LOCK`, `UNLOCK`, … starting with `LOCK`, and `locked`
  holds exactly after an odd number of toggles.
- `session.dfy` (module `Session`): the host client's frames replayed
  through the server, as written and with the missing identity frame added
  (see Findings).

An asyncio coroutine runs without interruption up to its next `await`. In
each branch of the handler, the test and the change of state come before
that branch's first `await`. So one frame's effect on the shared state is
one indivisible step, and runs of steps from different connections in any
order are what `Replay` covers. The queue sent to the host is encoded
before the send is awaited, so it is the queue just after that step.

## Model

| member | source | states |
|---|---|---|
| `Server.Next` | server.py:13-34 | The invariant is preserved: no duplicate in the queue, an empty queue while buzzing is closed, queued names are usernames, and the host said "host". A first frame only records the username: it is never dispatched, and only the username "host" registers a host (the sender). A PENALTY goes to the sender and changes nothing. Only a registered host is sent a queue, and it is exactly the new queue. The queue changes only by appending the BUZZ sender or by a LOCK emptying it. |
| `Server.Replay` | server.py:5-19 | From any state satisfying the invariant, every interleaving of frames from any connections keeps it. Every frame yields one output, and usernames are never dropped. |
| `Server.ReplayAppend` | server.py:19 | Handling one more frame is one more step after everything handled so far. |
| `Server.ReplaySplit` | server.py:19 | Handling two runs of frames one after the other gives the same state and outputs as handling their concatenation. |
| `Server.QueueInFirstBuzzOrder` | server.py:20-23 | While buzzing is open and no LOCK is dispatched, buzzing stays open. Old queue entries keep their positions. The queue holds exactly the old entries plus the BUZZ senders, with no duplicate. New entries appear in the order of each sender's first BUZZ. |
| `Server.ClosedQueueStaysEmpty` | server.py:20-30 | While buzzing is closed and no UNLOCK is dispatched, the queue stays empty and buzzing stays closed. The only possible outputs are nothing, PENALTY, or the empty queue to the host. |
| `Server.LockResets` | server.py:28-32 | LOCK from any state closes buzzing, empties the queue and changes nothing else. The host, if registered, is sent the empty queue. |
| `Server.ConnectAndUnlock` | server.py:13-34 | Players A and B and then the host connect, and the host sends UNLOCK. Nothing is sent, buzzing is open, the queue is empty and the host is registered. |
| `Server.TwoBuzzesInOrder` | server.py:20-25 | With buzzing open and the host registered, A's BUZZ and then B's BUZZ give the queue [A, B]. The host is sent [A] and then [A, B]. |
| `Server.TwoBuzzesAfterUnlock` | server.py:13-25 | Players A and B and the host connect, the host sends UNLOCK, then A and B send BUZZ. The queue is then [A, B], and the host is sent [A] and then [A, B]. |
| `Server.BuzzServer.constructor` | server.py:5-7 | Buzzing starts closed, with an empty queue, no host and no connections. |
| `Server.BuzzServer.Handshake` | server.py:13-17 | The first frame becomes the connection's username. "host" replaces the registered host with this connection. Buzzing and the queue are unchanged. |
| `Server.BuzzServer.Dispatch` | server.py:19-34 | An admitted BUZZ appends the sender and sends the host the new queue. A refused BUZZ (closed, or already queued) changes nothing and answers PENALTY. LOCK closes buzzing, empties the queue and notifies the host. UNLOCK opens buzzing and keeps the queue. Other frames change nothing and send nothing. The invariant is kept. |
| `Server.BuzzServer.Receive` | server.py:13-34 | One frame in place gives exactly the state and output of `Next`. |
| `Server.BuzzServer.HandleClient` | server.py:9-34 | A new connection's whole frame sequence, handled by its receive loop, leaves exactly the state and outputs of `Replay`, and keeps the invariant. |
| `Host.LastToggle` | host_client.py:19-26 | In a client's log, a toggle frame is LOCK exactly when the client then believes buzzing is locked, and each toggle flips that belief. |
| `Host.HostClient.constructor` | host_client.py:5-10 | A new client is unlocked and has sent nothing, so its first toggle sends LOCK. |
| `Host.HostClient.ToggleBuzzer` | host_client.py:19-26 | Sends UNLOCK when locked and LOCK when unlocked, then flips `locked` once. It keeps the invariant that toggles alternate LOCK, UNLOCK, … from a new client, with `locked` equal to an odd toggle count. |
| `Host.HostClient.ClearBuzzes` | host_client.py:28-30 | Sends CLEAR and leaves `locked` and the invariant unchanged. |
| `Host.ToggleTwice` | host_client.py:19-26 | Two toggles restore `locked` and send one LOCK and one UNLOCK, with UNLOCK first when the client started locked. |
| `Session.TogglerStep` | server.py:28-34 | With no host registered and an empty queue, a named connection's LOCK, UNLOCK or CLEAR sends nothing. LOCK closes buzzing, UNLOCK opens it, and CLEAR changes nothing. |
| `Session.AsWrittenHostNeverRegistered` | host_client.py:12-14 | A host client connects without an identity frame and sends any log. The server records its first frame as its username, registers no host, keeps the queue empty and sends it nothing. Once it has toggled, `locked` is the negation of the server's open flag. |
| `Session.IdentifiedHostTracksServer` | server.py:16-32 | The same client sending "host" first becomes the registered host. Once it has toggled, `locked` is the negation of the server's open flag. Each LOCK it sends comes back to it as the empty queue, and nothing else does. |
| `Session.FirstToggleBecomesUsername` | server.py:13-17 | One key press from a new host client makes the server store "LOCK" as its username, with no host registered. |

## Findings

| source | as written | input that shows it | evidently intended | confidence | as-written member | corrected member |
|---|---|---|---|---|---|---|
| host_client.py:12-14 | `connect` sends no username, but the server reads a connection's first frame as its username and registers a host only for the username "host". The host client's first toggle is consumed as its username. The client is never registered as host, so it is never sent the queue. | A new host client connects and presses its buzzer key once. The server stores the username "LOCK" and leaves the host unset. Later admitted BUZZes send the host client nothing. | The host client sends "host" as its first frame (`Session.IdentifiedSession`). | medium, not executed | `Session.AsWrittenHostNeverRegistered`, `Session.FirstToggleBecomesUsername` | `Session.IdentifiedHostTracksServer` |

## Left out

- The websockets and asyncio plumbing: `websockets.serve`, the event loop and
  concurrency itself. A run of the server is a sequence of atomic steps, one
  per frame, in any order across connections.
- The order in which queued sends reach the network after an `await` is not
  modelled: an output is the frame a step hands to the transport.
- JSON encoding of the queue: the host is sent the abstract value
  `QueueToHost(host, queue)`.
- Transport failures: a send to a closed host connection raises in the
  sender's handler and ends it. That is not modelled. A closed connection
  changes no server state in the source (its name stays queued and a host
  stays registered), so here it simply sends no more frames.
- Binary frames: every frame is a string.
- The clients' raw TCP sockets, host and port fields, `connect`, `send`,
  `recv` and log printing are not modelled. The host client's `sent` log
  stands in for its socket. The reply that `clear_buzzes` waits for is not
  modelled; the server never sends one for `CLEAR`. The host client speaks
  raw TCP to a websocket server; that transport mismatch is not modelled.
- The keyboard listeners and busy-wait loops of both clients (UI and a
  foreign library).
- player_client.py is not part of this model. It sends its username, then the
  frame `BUZZ`; the server side already covers both.
- The design documentation describes a later revision with a host secret,
  scores, WIN/BOOT, rate limits, heartbeat eviction, input validation,
  role checks and a drawing mode. It also broadcasts on UNLOCK. The code
  modelled here has none of this: any connection may send LOCK and UNLOCK,
  and UNLOCK sends nothing. The model follows the code.
- The `Session` lemmas cover the host connection with no player active.
  Players' BUZZ frames interleaved with the host's toggles are covered by
  the `Server` run lemmas, not composed with the host client.
