# YAMRP: concurrency of the broker and of the proxy

YAMRP connects a client behind one NAT with a host behind another. A signalling
server passes offers, answers and ICE candidates between them; afterwards every TCP
connection is relayed over a WebRTC data channel. This project models the concurrent
core of both in Dafny 4.11 and proves what survives every interleaving.

`dafny verify dfyconfig.toml` checks everything.

## How it is built

A component is a *step function*: `Step(s, e)` is the next state, or `None` when event
`e` is not enabled in `s`. An event is one region of the Go code that runs without
interleaving: a section under a lock, one channel operation, one statement of `Close`.
A run is a finite schedule of enabled events (`Runs.Run`), so a theorem about all runs
is a theorem about all interleavings. The gap between a look-up under a lock and the
channel operation after it is a state of its own, and timers are pending steps that may
fire at any time.

Beside the step functions stand the classes that have the Go code's fields: channel
objects held in maps, the routers' and handlers' local variables, the registry's client
objects, the proxy's channels, latch, futures and one reused read buffer. The history
that theorems speak about is ghost. Their methods are proved to take exactly the steps of
the model, for every event (`Execute`) and every schedule (`ExecuteAll`). The waiting
handlers, `client()`, `ListenNewOffer`, the proxy's owner goroutine, `Close` and, on a
closed connection, the two relay loops are whole methods; between their statements
`Interfere` lets all other goroutines of that server or proxy take any steps. Every step
is recorded in a ghost log under the number of the goroutine that took it, the log is the
whole history (`Handlers.Recorded`), and each of these methods states exactly which of the
steps recorded meanwhile are its own (`Handlers.Wrote`). What Go's select meets beside its
channel - a context that is done, a stream that fails - is an input of the call, and the
call's result follows from it and from what the channel held when the select ran.

The step functions are not taken on trust. For every component there is a second
description that reads the events of a run only and no state: which messages were sent,
which look-ups found which channel, which errors were returned, what was signalled
(`CreatingHistory`, `NonCreatingHistory`, `StreamHistory`, `BrokerHistory` and `BrokerRuns`,
`HostHistory`, `ProxyHistory`, and the traces in `Server` and `Tunnel`). The two agree: the
state after a run is what its events say, a step is possible if and only if they allow it,
and so the runs are exactly the schedules they allow.

| file | what it holds |
|---|---|
| `Runs.dfy`, `Packets.dfy` | runs of a step function, and what it means that the events alone say which steps are possible; keyed packets and their per-key streams |
| `CreatingRouter.dfy`, `CreatingHistory.dfy`, `MailboxTable.dfy` | the router shape that makes a missing mailbox (`offerRouter`, the answerer's `iceCandidateRouter`), as steps, as histories and on objects |
| `NonCreatingRouter.dfy`, `NonCreatingHistory.dfy`, `RendezvousTable.dfy` | the router shape that drops (`answerRouter`, the offerer's `iceCandidateRouter`), as steps, as histories and on objects |
| `Handlers.dfy` | the log of who took which step, and a call's own steps in it; how a select or a forwarding loop may end |
| `AnswererServer.dfy`, `OffererServer.dfy` | the two tables of each side, their clean-ups and whole handlers |
| `CandidateStreams.dfy`, `StreamHistory.dfy` | the `SendIceCandidate` handlers of both sides, as steps and as histories |
| `Broker.dfy`, `BrokerProofs.dfy`, `BrokerProjections.dfy`, `BrokerHistory.dfy`, `BrokerTheorems.dfy`, `BrokerRouters.dfy`, `BrokerAnswers.dfy`, `BrokerServers.dfy`, `BrokerRuns.dfy` | both servers wired together, with agents that follow `initWebRTCAsAnswerer`; what the callers passed; what holds of every run; what a wedged router costs; when an answer can still arrive; the broker's runs as runs of each server, and exactly which they are |
| `HostRegistry.dfy`, `HostHistory.dfy`, `HostServer.dfy` | `HostLifeManager` and what talks to it, as steps, as histories and on objects |
| `Server.dfy` | broker and registry joined on the notification channel; its runs as runs of either |
| `Futures.dfy` | `utils/async` and its consumer `setupWebRTC` |
| `Proxy.dfy`, `ProxyProofs.dfy`, `ProxyTheorems.dfy`, `ProxyHistory.dfy`, `ProxyProcess.dfy` | one proxied connection on either side, as steps, as histories and on an object |
| `Tunnel.dfy` | both ends of a connection and the data channel between them |

## Premises

* UUIDs are fresh: an answerer id is minted once and no packet carries it before; a host
  id is logged in once. Without the second half of the first, `NonCreatingRouter`'s
  `InputSplits` still holds, and `PrefixNeedsFreshness` says exactly when the prefix
  claim does.
* Agents learn an id only from `WaitForOffer` and answer it at most once, as
  `client/agent.go` does. The text of an answer is arbitrary.
* Reads and writes fail once the connection is closed. Otherwise sockets and data
  channels may succeed, fail, or return partial data at any time.
* A data channel delivers what was sent, in order, as long as it delivers (its default
  mode). Only `Tunnel.dfy` uses this.
* A close callback of a data channel may run any number of times, at any time after it
  was registered.

## What turned out not to hold

* A comment in `server/offerer.go:62` says that an answer channel is deleted when the
  answer is received. The code deletes it only by the clean-up: an id is mapped exactly
  while its clean-up is pending (`BrokerTheorems.OffererLifecycle`), and
  `BrokerRouters.ReceivedAnswerKeepsEntry` shows the run.
* `chkHostIdle` does not always find its host. It dereferences nil exactly when a close
  of the host was handled first (`HostRegistry.FailsExactlyAfterClose`), which takes a
  delivery that timed out (`FailureNeedsTimeout`). A delivery whose timer has fired by the
  time its select polls may time out although there is room; then one notification is
  enough (`OneNotificationFails`). If none does, it takes more than 1024
  (`PatientFailureNeedsFullBuffer`), and still happens (`ActorCanFail`).
* Host mailboxes may outlive every clean-up: exactly those that `WaitForOffer` made
  (`BrokerTheorems.HostMailboxWithoutTimer`).
* A clean-up may delete a younger mailbox than its own: exactly when its key is mapped to
  another one (`CreatingRouter.FireHitsYounger`, `OldTimerUnmapsYounger`).
* A router can stop for good: an unbuffered send for an id whose clean-up has run and that
  nobody waits for, or a send on a full mailbox that was unmapped, never finishes. When a
  send can finish, and when a waiter can still receive, is stated if and only if, for both
  router shapes (`HandOverCanFinish`, `SendCanFinish`, `HandlerCanReceive`). What each of
  the four routers costs the rest when it stops, and that the answerer's candidate router
  also holds up the offerer's handlers, is in `BrokerRouters.dfy`, with a run to each of the
  four. `BrokerAnswers.AnswerCanStillArrive` says when a waiting offerer still has a chance.

## Model

| member | source | states |
|---|---|---|
| `CreatingRouter.InvStep` | server/anserer.go:200-225 | Every step of a creating router, its waiters, deferred deletes and timers keeps: map entries are the youngest mailbox of their key, nothing was written to a mailbox younger than the one in the router's hand, per-key order, capacities, reference/key agreement, pending timers |
| `CreatingRouter.InvRun` | server/anserer.go:200-250 | That invariant holds after every interleaving, from empty maps |
| `CreatingRouter.OrderAcrossIncarnations` | server/anserer.go:205-221 | For every key, the send histories of all channels ever made for it, oldest first, equal what the router received for the key in the events of the run, short of at most the packet in hand, whatever happens between look-up and send |
| `CreatingRouter.StaleReferencesAreIsolated` | server/anserer.go:59-74 | A received value was sent to the key its handler looked up, even through a channel no longer mapped |
| `CreatingRouter.EntriesNeedTimers` | server/anserer.go:231-243 | If all mailboxes are made with a clean-up, entries are at most as many as clean-ups pending, and none is left when none is pending |
| `CreatingRouter.DistinctPositions` | server/anserer.go:221 | No packet of a key is duplicated across its channels |
| `CreatingRouter.Conservation` | server/anserer.go:200-225 | Every packet consumed is in exactly one place: with a handler, in the mapped channel, in an orphaned one, or in the router's hand; no channel exceeds its capacity |
| `CreatingRouter.HandlerCanReceive` | server/anserer.go:205-221 | A handler can receive, now or in some continuation, if and only if it has not returned and its mailbox holds a value, or the router holds that mailbox, or it is still mapped and the router is not wedged |
| `CreatingRouter.FireHitsYounger` | server/anserer.go:211-216 | A clean-up removes an entry that is not its own if and only if its key is mapped to another mailbox, which is then younger; that one's own clean-up stays pending exactly if it was made with one; other keys are untouched |
| `CreatingRouter.OldTimerUnmapsYounger` | server/anserer.go:236-241 | It does happen: a run to a state in which a pending clean-up would hit a younger mailbox |
| `CreatingRouter.ReceivedStep` | server/anserer.go:177-181 | Only a handler's own receives give it anything; each gives it the oldest value not yet received from the channel it looked up |
| `CreatingRouter.ReceivedOnce` | server/anserer.go:68-75 | A one-shot handler, as WaitForOffer is, receives at most one value, and none before it returns |
| `CreatingRouter.ReceivedKept` | server/anserer.go:172-190 | Whatever others do in between, a handler keeps its channel and what it has received |
| `CreatingRouter.ReceivedForKey` | server/anserer.go:154-189 | All a handler ever receives was sent to the key it looked up |
| `CreatingRouter.WedgedForEver` | server/anserer.go:221 | A router at a full channel that is unmapped and has no handler left consumes nothing any more, for any key, in any continuation |
| `CreatingRouter.WedgedSendsNothing` | server/anserer.go:221 | Nor is anything sent on any channel any more |
| `CreatingRouter.SendCanFinish` | server/anserer.go:221 | The router's send can finish, now or in some continuation, if and only if its channel has room, is still mapped, or has a handler that has not returned |
| `CreatingRouter.RouterCanWedge` | server/anserer.go:205-221 | For any capacity, one packet more than fits and one clean-up between look-up and send are enough (a concrete run) |
| `CreatingHistory.StateIsHistory` | server/anserer.go:200-250 | The map, every channel and who received from it, the pending clean-ups, the look-ups, which handlers have returned and what the router holds are functions of the events alone: e.g. a channel has received exactly the packets that the router held for it at its sends |
| `CreatingHistory.HappensExactly` | server/anserer.go:200-250 | A step is possible if and only if the events so far allow it: a send while the channel has room, a receive by a handler that has not returned while a value is unreceived, a clean-up once per mailbox made with one |
| `CreatingHistory.RunsAreHistories` | server/anserer.go:200-250 | So the runs are exactly the schedules in which each event was allowed when it came |
| `MailboxTables.Channel.constructor` | server/anserer.go:209 | A fresh buffered channel is empty |
| `MailboxTables.Channel.Send` | server/anserer.go:221 | A send with room puts the value at the end of the buffer |
| `MailboxTables.Channel.Receive` | server/anserer.go:72 | A receive takes the oldest value in the buffer |
| `MailboxTables.MailboxTable.constructor` | server/anserer.go:49-50 | Empty map, no timers |
| `MailboxTables.MailboxTable.Receive` | server/anserer.go:203 | The router takes a packet from its input |
| `MailboxTables.MailboxTable.MakeChannel` | server/anserer.go:209-210 | A new channel replaces whatever the map held for the key and nothing else changes |
| `MailboxTables.MailboxTable.Ensure` | server/anserer.go:78-90 | Locked get-or-create: an existing channel is kept, a missing one is made, with a clean-up if asked |
| `MailboxTables.MailboxTable.StartTimer` | server/anserer.go:211-216 | A clean-up goroutine that captured its key |
| `MailboxTables.MailboxTable.ResolveMailbox` | server/anserer.go:205-220 | The router's locked section does the Resolve step: it leaves with the entry, made with a clean-up if missing |
| `MailboxTables.MailboxTable.SendHeld` | server/anserer.go:221 | The send after the lock was released goes to the channel found under it |
| `MailboxTables.MailboxTable.Acquire` | server/anserer.go:157-159 | A handler keeps the mapped channel |
| `MailboxTables.MailboxTable.EnsureAndAcquire` | server/anserer.go:59-67 | WaitForOffer's locked section: get-or-create without a clean-up, then keep the channel |
| `MailboxTables.MailboxTable.Take` | server/anserer.go:68-75 | A handler receives the oldest value of the channel object it kept, and returns if it is one-shot |
| `MailboxTables.MailboxTable.Delete` | server/anserer.go:164-168 | Deferred delete by key |
| `MailboxTables.MailboxTable.FireTimer` | server/anserer.go:211-216 | A clean-up deletes the key it captured |
| `MailboxTables.MailboxTable.Execute` | server/anserer.go:200-250 | One scheduled step runs on the objects exactly when it is enabled in the model, with the same result |
| `MailboxTables.MailboxTable.ExecuteAll` | server/anserer.go:200-250 | Any schedule run on the objects refines the run of the step function, so the theorems hold of the objects |
| `MailboxTables.MailboxTable.Leave` | server/anserer.go:69-71 | A handler returns |
| `NonCreatingRouter.InvStep` | server/offerer.go:306-323 | Every step of a non-creating router keeps the split of its input per key and the agreement of references |
| `NonCreatingRouter.InputSplits` | server/offerer.go:306-323 | Per minted key what the router received in the events of the run is, in order: dropped before minting, handed over, dropped afterwards, at most one in hand; nothing is dropped while the key is mapped |
| `NonCreatingRouter.DeliversPrefix` | server/offerer.go:287-304 | For a key not used before it was minted, what is handed over is a prefix of the input |
| `NonCreatingRouter.PrefixNeedsFreshness` | server/offerer.go:287-304 | If no packet for a key repeats, what is handed over is a prefix of the input if and only if nothing was dropped before the key was minted, or nothing is handed over |
| `NonCreatingRouter.GuessedKeyBreaksPrefix` | server/offerer.go:311-317 | It does happen: a packet for a guessed id is dropped before the id is minted, a later one is delivered (a concrete run) |
| `NonCreatingRouter.NothingAfterADrop` | server/offerer.go:295-298 | After a drop for a minted key nothing is ever delivered for it and its entry never returns |
| `NonCreatingRouter.UnmappedForEver` | server/offerer.go:128-143 | A minted key once unmapped is never mapped again, and nothing more is handed over for it than the one value the router may hold |
| `NonCreatingRouter.ReceivedStep` | server/offerer.go:180-183 | A handler gets exactly what the router holds at their meetings |
| `NonCreatingRouter.ReceivedOnce` | server/offerer.go:180-188 | A one-shot handler, as WaitForAnswer is, is handed at most one value, and none before it returns |
| `NonCreatingRouter.ReceivedForKey` | server/offerer.go:172-188 | All a handler ever gets was sent to the id it looked up |
| `NonCreatingRouter.WedgedForEver` | server/offerer.go:319 | A router with a value for an unmapped id that no handler waits for consumes nothing any more, for any id, in any continuation |
| `NonCreatingRouter.HandOverCanFinish` | server/offerer.go:300 | The hand-over can finish, now or in some continuation, if and only if the id is mapped or a handler that looked it up has not returned |
| `NonCreatingRouter.HandlerCanReceive` | server/offerer.go:180-188 | A handler can receive, now or in some continuation, if and only if it has not returned and the router holds a value for its id, or the id is mapped and the router is not wedged |
| `NonCreatingRouter.RouterCanWedge` | server/offerer.go:311-319 | A clean-up between look-up and hand-over is enough (a concrete run) |
| `NonCreatingHistory.StateIsHistory` | server/offerer.go:287-323 | The map, what was handed over for each key and to whom, what was dropped, the look-ups, which handlers have returned and what the router holds are functions of the events alone |
| `NonCreatingHistory.HappensExactly` | server/offerer.go:287-323 | A step is possible if and only if the events so far allow it: a hand-over to a handler that looked that key up and has not returned, a look-up while the key is mapped |
| `NonCreatingHistory.RunsAreHistories` | server/offerer.go:287-323 | So the runs are exactly the schedules in which each event was allowed when it came |
| `RendezvousTables.RendezvousTable.constructor` | server/offerer.go:103-104 | Empty map |
| `RendezvousTables.RendezvousTable.Receive` | server/offerer.go:309 | The router takes a packet |
| `RendezvousTables.RendezvousTable.Lookup` | server/offerer.go:311-317 | Locked look-up: the router keeps the channel, or drops the packet |
| `RendezvousTables.RendezvousTable.HandOver` | server/offerer.go:319 | The unbuffered send completes with a handler that holds the same channel, which gets the value |
| `RendezvousTables.RendezvousTable.Mint` | server/offerer.go:123-124 | A new id gets a new channel, other entries stay |
| `RendezvousTables.RendezvousTable.Acquire` | server/offerer.go:174-179 | A handler's look-up succeeds exactly for mapped ids |
| `RendezvousTables.RendezvousTable.Delete` | server/offerer.go:211 | Delete by key |
| `RendezvousTables.RendezvousTable.Leave` | server/offerer.go:185-186 | A handler returns |
| `RendezvousTables.RendezvousTable.Execute` | server/offerer.go:287-323 | One scheduled step runs on the objects exactly when it is enabled in the model, with the same result |
| `RendezvousTables.RendezvousTable.ExecuteAll` | server/offerer.go:287-323 | Any schedule run on the objects refines the run of the step function |
| `OffererServers.OffererServer.constructor` | server/offerer.go:86-106 | Both maps empty, no clean-up pending |
| `Handlers.WroteThen` | server/anserer.go:59-90 | One stretch of a call after another: in the whole log, the caller's own steps are those of the first, then those of the second |
| `Handlers.WroteRun` | server/anserer.go:59-90 | What a call added to the log is a run of all goroutines together from the state before it to the state after it, and the steps listed as the caller's are exactly the caller's in it |
| `Handlers.OthersWrote` | server/anserer.go:68-77 | Steps recorded under other goroutines' numbers add nothing to the caller's own |
| `OffererServers.InvStep` | server/offerer.go:122-143 | Every step of handlers, routers and clean-ups on both maps keeps: an id is mapped for answers exactly while its clean-up is pending, for candidates at most that long |
| `OffererServers.OffererServer.RegisterId` | server/offerer.go:122-128 | SendOffer's locked section makes both channels and starts one clean-up for both |
| `OffererServers.OffererServer.Execute` | server/offerer.go:122-143 | One step of any goroutine on either map runs on the objects exactly when the model enables it |
| `OffererServers.OffererServer.ExecuteAll` | server/offerer.go:122-143 | Any schedule on both maps refines the model's run |
| `OffererServers.OffererServer.Interfere` | server/offerer.go:174-188 | Between two steps of a handler the other goroutines take any steps, on both maps, recorded under their own numbers, but those on the handler's own channel reference |
| `OffererServers.OffererServer.CleanupFired` | server/offerer.go:136-142 | The clean-up deletes its id from both maps |
| `OffererServers.OffererServer.WaitForAnswer` | server/offerer.go:172-188 | NotFound exactly if the id is unmapped, and then nothing happened. Whether the context is done when the select runs, and whether Go then prefers it, are inputs: the call receives the answer that the router held for its channel at that moment unless the context was done and preferred, gives up only if it was done, and still waits only if the router held none. Of all steps recorded during the call on both maps, its own are exactly its look-up and its hand-over or return; an answer returned is the only one it gets and was sent for the id |
| `OffererServers.OffererServer.WaitForICECandidate` | server/offerer.go:191-234 | NotFound exactly if the id is unmapped, and then nothing happened. When the context is done and when the stream fails are inputs, turn by turn: the loop ends only by them, and waits only if the router held nothing for its channel when its select ran; so it forwards, in order, all it was handed, all sent for the id. Of all steps recorded during the call on both maps, its own are exactly its look-up, one hand-over per candidate forwarded, its return and, if its send on closeIceToAnsCh is received, one delete of its own id |
| `AnswererServers.AnswererServer.constructor` | server/anserer.go:36-52 | Both maps empty, capacities 1 and 1024 |
| `AnswererServers.InvStep` | server/anserer.go:193-250 | Every step on both tables keeps their invariants, and all candidate mailboxes have clean-ups |
| `AnswererServers.AnswererServer.Execute` | server/anserer.go:193-250 | One step of any goroutine on either table runs on the objects exactly when the model enables it |
| `AnswererServers.AnswererServer.ExecuteAll` | server/anserer.go:193-250 | Any schedule on both tables refines the model's run |
| `AnswererServers.AnswererServer.Interfere` | server/anserer.go:68-77 | Between two steps of a handler the other goroutines take any steps, on both tables, recorded under their own numbers, but those on the handler's own channel reference |
| `AnswererServers.AnswererServer.WaitForOffer` | server/anserer.go:55-97 | Whether the context is done when the select runs, and whether Go then prefers it, are inputs: the call receives the oldest offering in the mailbox it found unless the context was done and preferred, gives up only if it was done, and still waits only if there was none. Of all steps recorded during the call on both tables, its own are exactly its get-or-create, its one receive or return and, with an offering, the second locked section; an offering returned is the only value it received and was sent to the host; its id then has a candidate mailbox with a clean-up pending |
| `AnswererServers.AnswererServer.WaitForICECandidate` | server/anserer.go:154-191 | NotFound exactly if the id is unmapped, and then nothing happened. When the context is done and when the stream fails are inputs, turn by turn: the loop ends only by them, and waits only if its mailbox was empty when its select ran; so it forwards, in order, what is there, all sent for the id. Of all steps recorded during the call on both tables, its own are exactly its look-up, one receive per candidate forwarded and, once out of the loop, its return and one delete of its own id, which is then unmapped |
| `CandidateStreams.InvStep` | server/offerer.go:240-272 | Each SendIceCandidate stream's messages are what the shared channel accepted from it, in order, plus at most one in its helper's hands |
| `CandidateStreams.AcceptedKeepsStreamOrder` | server/anserer.go:116-151 | Per stream and key, the shared channel accepts in the order received |
| `CandidateStreams.StreamCanReceive` | server/offerer.go:240-272 | A stream can take another message, now or in some continuation, if and only if its helper is receiving or its context lasts |
| `CandidateStreams.AfterDone` | server/offerer.go:244-246 | Once its context is done a stream takes at most the one message its helper was waiting for |
| `StreamHistory.StateIsHistory` | server/offerer.go:240-272 | What each stream received is, in order, the messages its client sent, each as a packet for the AnswererId it names with its Body; the shared channel accepted what each helper had received last |
| `StreamHistory.AcceptedWasSent` | server/offerer.go:257-260 | Whatever the shared channel accepted is a message of that stream, with that AnswererId and that Body |
| `StreamHistory.HappensExactly` | server/anserer.go:116-147 | A step is possible if and only if the events so far allow it: the next receive only after the push and the signal of the one before, and not once the context is done |
| `StreamHistory.RunsAreHistories` | server/anserer.go:116-147 | So the runs are exactly the schedules in which each event was allowed when it came |
| `BrokerProofs.InvStep` | server/server.go:13-26 | Every event of the wired broker keeps its invariant |
| `BrokerProofs.InvRun` | server/server.go:13-26 | The invariant holds after every run of the broker |
| `BrokerProofs.OfferingsUnique` | server/anserer.go:72-75 | Offerings in mailboxes are genuine and no id occurs twice in any of them |
| `BrokerProofs.AgentUnique` | server/anserer.go:55-97 | At most one WaitForOffer call is ever handed an id |
| `BrokerTheorems.SessionAgreement` | server/offerer.go:172-188 | If WaitForAnswer(id) returned an answer, it is the only one for id and the text that agent r passed to SendAnswer; r is the only agent ever handed id, and was handed exactly the offer and host that the SendOffer call that minted id was given |
| `BrokerTheorems.AgentOffer` | client/agent.go:115-125 | What an agent holds is the offer text and host of the SendOffer call that minted its id |
| `BrokerTheorems.OffersInOrder` | server/anserer.go:200-225 | Per host, the offers in mailboxes and in the router's hand are, in order and without repetition, those that SendOffer calls handed over, each as its caller sent it |
| `BrokerTheorems.CandidatesInOrder` | server/offerer.go:240-272 | Across all mailboxes of an answerer, the candidates of one stream are a prefix of what the client of that stream sent for that id |
| `BrokerTheorems.AnswersArePrefix` | server/offerer.go:306-323 | Answers handed to the offerer are a prefix of what was sent for the id |
| `BrokerTheorems.CandidatesArePrefix` | server/offerer.go:287-304 | Candidates handed to the offerer are a prefix of what was accepted for the id |
| `BrokerTheorems.StreamsArePrefix` | server/anserer.go:116-151 | Of one stream's candidates, what is handed over is a prefix of what the client of that stream sent for the id |
| `BrokerTheorems.CreatingSideConserves` | server/anserer.go:200-250 | Every accepted offer and every pushed candidate is in exactly one place, counting the shared channel; capacities 1 and 1024 are kept |
| `BrokerTheorems.NonCreatingSideConserves` | server/offerer.go:287-323 | Per id, what was sent is, in order, handed over, dropped, in hand, queued; the shared channels hold at most 1024 |
| `BrokerTheorems.OffersAreIsolated` | server/anserer.go:68-75 | An offering that a WaitForOffer call received is what a SendOffer call was given for the host that the WaitForOffer call named |
| `BrokerTheorems.AnswererCandidatesAreIsolated` | server/anserer.go:172-189 | A candidate that an answerer's handler received was sent by a client, on that stream, for the id the handler asked for |
| `BrokerTheorems.AnswersAreIsolated` | server/offerer.go:172-188 | An answer handed over was given by an agent that was handed the id its receiver asked for |
| `BrokerTheorems.OffererCandidatesAreIsolated` | server/offerer.go:191-233 | A candidate handed over was sent by a client, on that stream, for the id the handler asked for |
| `BrokerTheorems.AnswererMailboxesNeedTimers` | server/anserer.go:78-90 | Every answerer candidate mailbox has its own clean-up pending; no more entries than clean-ups; empty when none is pending |
| `BrokerTheorems.HostMailboxWithoutTimer` | server/anserer.go:59-67 | A host mailbox made by WaitForOffer stays without any clean-up pending (a concrete run); an entry has its own clean-up pending if and only if the router made it |
| `BrokerTheorems.OffererLifecycle` | server/offerer.go:122-143 | An id is mapped for answers exactly while its clean-up is pending; candidate keys are among answer keys; both maps are empty when no clean-up is pending |
| `BrokerTheorems.AnswersAbsentForEver` | server/offerer.go:128-143 | Once unmapped, an id is never mapped again, and WaitForAnswer returns nothing more for it but the one answer that the router may hold at that moment |
| `BrokerTheorems.CandidatesAbsentForEver` | server/offerer.go:208-213 | The same for the candidate map, whose entry may go earlier: nothing more but the one candidate that the router may hold |
| `BrokerTheorems.NoAnswerAfterADrop` | server/offerer.go:311-317 | Once an answer for a minted id was dropped, no later one is ever handed over |
| `BrokerTheorems.NoCandidateAfterADrop` | server/offerer.go:295-298 | The same for candidates |
| `BrokerTheorems.ReturnedOfferHasMailbox` | server/anserer.go:78-90 | When WaitForOffer returns, the answerer's candidate mailbox is mapped with a clean-up pending, an existing one was kept; in every continuation that does not unmap that id, a look-up finds that very mailbox |
| `BrokerTheorems.OnlyOwnCleanupUnmaps` | server/offerer.go:128-143 | Over any run, an id stays mapped for answers until its own clean-up |
| `BrokerTheorems.OnlyOwnDeletesUnmap` | server/offerer.go:208-213 | And for candidates until that or the deferred delete of a call that looked the id up |
| `BrokerTheorems.AcceptedWithinNotified` | server/offerer.go:145-163 | Per host, accepted offers never exceed notifications sent |
| `BrokerHistory.SessionsAreMinted` | server/offerer.go:112-128 | An id has a session exactly if a SendOffer call minted it, with the host and offer of that call |
| `BrokerHistory.OffersAreAsSent` | server/offerer.go:155-163 | offerRouter was given exactly the offers of the calls that handed over, in order, each with its own host, id and text |
| `BrokerHistory.AgentsWaitForHosts` | server/anserer.go:59-67 | One waiting agent per WaitForOffer call, for the host that the call named |
| `BrokerHistory.AnswersAreAsSent` | server/anserer.go:101-113 | What was put on answerCh is, in order, what the agents answered: by whom, and the text |
| `BrokerHistory.CandidateOfOfferer` | server/offerer.go:240-272 | A candidate pushed towards an answerer is a message of an offerer's stream, with its id and text |
| `BrokerHistory.CandidateOfAnswerer` | server/anserer.go:116-151 | And one pushed towards an offerer, of an answerer's |
| `BrokerRuns.OffersRunIs` | server/anserer.go:200-225 | What the calls, the router and the clean-ups did to hostID2waitingCh, listed from the events, is a run of that table to its present state |
| `BrokerRuns.AnswersRunIs` | server/offerer.go:306-323 | The same for AnsID2AnsChan: its router received the agents' answers in the order sent |
| `BrokerRuns.AnsIceRunIs` | server/anserer.go:227-250 | The same for the answerer's AnsID2iceToAnsChan |
| `BrokerRuns.OffIceRunIs` | server/offerer.go:287-304 | And for the offerer's, with the deferred deletes of the ids that the calls had looked up |
| `BrokerRuns.AgentsAreHistory` | server/anserer.go:55-97 | Each agent is where its own events have brought it, and holds the oldest offering that nobody had taken from the mailbox its look-up found |
| `BrokerRuns.CallsAreHistory` | server/offerer.go:112-170 | Each SendOffer call is where its own events have brought it, and its clean-up is pending exactly until it runs |
| `BrokerRuns.HappensExactly` | server/server.go:13-26 | A step of the wired broker is possible if and only if the events so far allow it; the condition names no state |
| `BrokerRuns.RunsAreHistories` | server/server.go:13-26 | So the broker's runs are exactly the schedules in which each event was allowed when it came |
| `BrokerProjections.AnswersRun` | server/offerer.go:306-323 | Seen from the answer table, a run of the broker is a run of that table |
| `BrokerProjections.OffersRun` | server/anserer.go:200-225 | The same for the offer table |
| `BrokerProjections.OffIceRun` | server/offerer.go:287-304 | The same for the offerer's candidate table |
| `BrokerProjections.AnsIceRun` | server/anserer.go:227-250 | The same for the answerer's candidate table |
| `BrokerRouters.WedgedOfferRouter` | server/anserer.go:200-225 | Once the offer router is wedged, no offer is accepted or delivered to a mailbox again, for any host |
| `BrokerRouters.WedgedAnswererCandidateRouter` | server/anserer.go:227-250 | Once the answerer's candidate router is, no candidate reaches any answerer again |
| `BrokerRouters.WedgedAnswerRouter` | server/offerer.go:306-323 | Once the answer router is, no WaitForAnswer returns an answer again, for any session |
| `BrokerRouters.WedgedOffererCandidateRouter` | server/offerer.go:287-304 | Once the offerer's candidate router is, no candidate reaches any offerer again |
| `BrokerRouters.DeferredCleanupCanRun` | server/offerer.go:208-213 | An offerer's WaitForICECandidate call past its loop can get on, now or in some continuation, if and only if the answerer's candidate router is not wedged |
| `BrokerRouters.WedgedRouterHoldsUpDeletes` | server/offerer.go:208-213 | While that router is wedged, a candidate entry of the offerer goes only by its own clean-up or by a deferred delete whose send had been received before |
| `BrokerRouters.UnclaimedAnswerWedges` | server/offerer.go:311-319 | One answer whose clean-up runs after the look-up and that nobody waits for wedges the answer router (a concrete run) |
| `BrokerRouters.UnclaimedCandidateWedges` | server/offerer.go:292-300 | One candidate that nobody waits for does the same to the offerer's candidate router (a concrete run) |
| `BrokerRouters.TwoOffersWedge` | server/anserer.go:205-221 | Two SendOffer calls for one host and the mailbox's clean-up after the second look-up wedge the offer router, without any agent (a concrete run) |
| `BrokerRouters.UnfetchedCandidatesWedge` | server/anserer.go:230-244 | 1025 candidates for one id that nobody fetches and one clean-up wedge the answerer's candidate router, without any SendOffer (a concrete run) |
| `BrokerRouters.ReceivedAnswerKeepsEntry` | server/offerer.go:172-188 | After WaitForAnswer returned the answer, the id is still mapped (a concrete run) |
| `BrokerAnswers.AnswerCanStillArrive` | server/offerer.go:172-188 | Once an agent was handed the offer of an id, a WaitForAnswer call for that id can still return an answer, now or in some continuation, if and only if it has not returned, none was handed over for the id, and the router holds it, or the id is mapped and the router is not wedged |
| `BrokerAnswers.OnlyThenReturns` | server/offerer.go:172-188 | Whatever agents do, that condition is necessary |
| `BrokerServers.OffererRun` | server/offerer.go:86-143 | Seen from OffererServer, a run of the broker is a run of that server's two tables and clean-ups |
| `BrokerServers.AnswererRun` | server/anserer.go:36-97 | Seen from AnswererServerImpl, a run of the broker is a run of that server's two tables |
| `BrokerServers.ServersRun` | server/server.go:13-26 | Every run of the broker is one run of each server from its empty tables |
| `HostRegistry.InvStep` | server/host.go:180-196 | Every event of the registry, with time-outs that may be taken at once or after blocking, keeps accounting, single idle checks, explained removals and closes, login order and reply matching |
| `HostRegistry.NotificationsAccounted` | server/host.go:161-177 | Per host, notifications received = ignored + in hand + delivery goroutines + buffered (at most 1024) + taken + timed out |
| `HostRegistry.FailsExactlyAfterClose` | server/host.go:142-147 | The actor dereferences nil exactly when it handles the idle check of a host whose close it handled before |
| `HostRegistry.FailureNeedsTimeout` | server/host.go:164-173 | That needs a delivery of that host that timed out, hence a notification |
| `HostRegistry.FailureNeedsFullBuffer` | server/host.go:164-173 | Unless a delivery of that host took its time-out on entering the select while there was room, it needs more than 1024 notifications for the host |
| `HostRegistry.PatientFailureNeedsFullBuffer` | server/host.go:164-173 | Stated of the run: if no delivery times out while there is room, a failure needs more than 1024 notifications |
| `HostRegistry.OneNotificationFails` | server/host.go:164-173 | Without that premise one notification is enough (a concrete run) |
| `HostRegistry.ActorCanFail` | server/host.go:186-189 | It does happen with a full buffer too: a run in which a host's close is handled before its idle check |
| `HostRegistry.IdleCheckDecides` | server/host.go:142-147 | Without an earlier close the idle check finds its host and removes it exactly if idle, touching no other |
| `HostRegistry.CheckedOnce` | server/host.go:135-139 | A registered host has exactly one idle check: on its timer, queued, in hand or handled |
| `HostRegistry.ActiveNeverCollected` | server/host.go:77-82 | Active stays active, and an active host leaves the map only by a close |
| `HostRegistry.LoginBeforeLookup` | server/host.go:110-117 | The i-th client() call gets at most the i-th reply, for its host; after LoginHost returned the id, it is a client unless the host was removed first |
| `HostRegistry.LookupAnswersRegistry` | server/host.go:153-159 | Each received request is answered next, from the registry as it then is |
| `HostHistory.MapIsHistory` | server/host.go:128-152 | A host is mapped exactly if it was registered and since then neither closed nor, while idle, checked; of an active host a check leaves the entry, a close removes it |
| `HostHistory.ActorHolds` | server/host.go:180-196 | What the actor is handling is the oldest unreceived message of the channel it received from |
| `HostHistory.RepliesAreHistory` | server/host.go:153-159 | The i-th reply is for the i-th request and found a client exactly if the host was mapped when it was handled |
| `HostHistory.SignalsAreHistory` | server/host.go:161-177 | Per host, idle or active: the channel holds one signal for each delivery that arrived while there was room and each that found room later, less one for each receive of a listener; every notification handled while the host was mapped started a delivery |
| `HostHistory.NotificationsAccounted` | server/host.go:161-177 | The same account as an equation between numbers of events: received = ignored + in hand + starting + blocked + in the channel + received by listeners + timed out |
| `HostHistory.TimersAreHistory` | server/host.go:135-139 | One idle timer per registration, pending until it fires |
| `HostHistory.HappensExactly` | server/host.go:128-196 | A step of the registry is possible if and only if the events so far allow it: e.g. a listener receives exactly while more signals were delivered than received |
| `HostHistory.RunsAreHistories` | server/host.go:128-196 | So its runs are exactly the schedules in which each event was allowed when it came |
| `HostHistory.ClosedIsHistory` | server/host.go:149-152 | What the registry remembers of closes and checks is what the actor handled |
| `HostHistory.CheckFailsAfterClose` | server/host.go:142-147 | The nil dereference in terms of messages: a check ends the process exactly if a close of its host was handled before |
| `HostServers.HostClient.constructor` | server/host.go:129-134 | A new client is idle with empty buffers |
| `HostServers.HostServer.constructor` | server/host.go:65-74 | Empty registry |
| `HostServers.HostServer.RegisterHost` | server/host.go:128-140 | A fresh client object and one idle timer |
| `HostServers.HostServer.ChkHostIdle` | server/host.go:142-147 | Removes the host exactly if idle; panics exactly when there is no entry |
| `HostServers.HostServer.DeleteHost` | server/host.go:149-152 | Removes the entry |
| `HostServers.HostServer.HandleHostClientRequest` | server/host.go:153-159 | Puts the mapped client or nil on the returnChan |
| `HostServers.HostServer.HandleNewOffer` | server/host.go:161-177 | Starts a delivery goroutine for a mapped host, ignores others |
| `HostServers.HostServer.HandleMessage` | server/host.go:182-195 | One turn of the actor loop is the Handle step, for every message |
| `HostServers.HostServer.Execute` | server/host.go:128-196 | Every step of the actor, the timers, the deliveries (which may take their time-out on entering the select), the closers and the handlers runs on the objects exactly when the model enables it |
| `HostServers.HostServer.ExecuteAll` | server/host.go:128-196 | Any schedule on the objects refines the model's run, so its theorems hold of the objects |
| `HostServers.HostServer.RequestClient` | server/host.go:110-117 | client() under interference: its only own step is the request, not made only if the channel was full; it has no reply only if the actor has not replied; its reply is for the host it asked for, is the client or nil as the actor found it, and for a host logged in before the call is nil exactly if the host had been removed |
| `HostServers.HostServer.ListenNewOffer` | server/host.go:77-99 | Under interference: NotFound exactly if the reply is nil. When the stream fails is an input, turn by turn: the loop ends only then and waits only if the channel holds no signal. Of all steps recorded during the call, its own are exactly its request, marking the client active and one receive per signal forwarded, and the client stays active |
| `Server.InvStep` | server/server.go:13-26 | Broker and registry, joined on the notification channel, keep both invariants and count the same notifications |
| `Server.BrokerRun` | server/server.go:13-26 | The broker's events of a server run, in order, are a run of the broker, so every theorem about the broker's runs holds of the server |
| `Server.HostRun` | server/server.go:13-26 | And the registry's, each notification being for the host that SendOffer was given, a run of the host registry |
| `Server.SessionAgreement` | server/offerer.go:145-188 | Session agreement of the joined server, and the host of an answered session had been notified of it |
| `Server.EveryAcceptedOfferWasNotified` | server/offerer.go:145-163 | Per host, offers handed over never exceed the notifications that reached the actor, each of which it ignored, holds, or made into a delivery |
| `Server.HappensExactly` | server/server.go:13-26 | A step of the joined server is possible if and only if the events so far allow it: none after the actor's failure, a notification when call and actor are both ready |
| `Futures.Future.constructor` | utils/async/future.go:63-69 | A new future will yield its outcome once |
| `Futures.Future.Resolve` | utils/async/future.go:47-49 | Fills the slot once |
| `Futures.Future.Await` | utils/async/future.go:42-44 | Yields the outcome and empties the slot |
| `Futures.Chan.Receive` | client/listener.go:578 | Receives in order; after close and drain reports closed |
| `Futures.AwaitAll` | utils/async/future.go:89-95 | The i-th result is the outcome of the i-th future, and each future is taken once |
| `Futures.AwaitUnordered` | utils/async/future.go:111-126 | One pass takes each future once, loses nothing through default, and the closed channel holds the i-th future's outcome at position i |
| `Futures.PollAll` | utils/async/future.go:100-106 | One polling pass, with futures resolved between any two polls: it takes the first ready future it meets and no other, and does not miss one that was ready before |
| `Futures.AwaitAny` | utils/async/future.go:98-108 | Any number of passes, with resolutions in between: exactly one future is taken, all others can still be awaited |
| `Futures.SetupWebRTC` | client/listener.go:570-588 | Yields nil exactly when some strategy yields nil |
| `ProxyProofs.InvStep` | client/proxy.go:66-219 | Every event keeps the teardown, end-of-life, reader and writer invariants |
| `ProxyProofs.InvRun` | client/proxy.go:66-219 | They hold after every interleaving |
| `ProxyTheorems.ExactlyOnceTeardown` | client/listener.go:118-171 | The body of Close runs at most once, stop channels are closed once and never used after, no closed proxy is in the map, and when the owner is done the proxy is out of the map and closed |
| `ProxyTheorems.EolBudget` | client/proxy.go:114-123 | At most two end-of-life signals are ever accepted; each loop fails at most three times; at most three writes are under way |
| `ProxyTheorems.NoLostEol` | client/proxy.go:114-123 | After any end-of-life attempt the owner has left its select or can leave it now |
| `ProxyTheorems.OwnerErrors` | client/proxy.go:161-169 | The owner is told nil only by the listener's close callback, never a closed pipe, and net.ErrClosed only by a write |
| `ProxyTheorems.UpstreamRelay` | client/proxy.go:126-177 | At most one read outstanding; accepted chunks are an in-order subsequence of the chunks read, of 1 to 1024 bytes; until the first refusal they are a prefix |
| `ProxyTheorems.DownstreamRelay` | client/proxy.go:180-219 | Messages are taken in arrival order; until the first failure or timeout at most one write is outstanding and the socket holds a prefix of what arrived |
| `ProxyTheorems.ReaderDecreases` | client/proxy.go:126-177 | After the connection is closed every step of the reading loop lowers a measure and no other step raises it |
| `ProxyTheorems.ReadingLoopTerminates` | client/proxy.go:126-177 | After the connection is closed the loop takes at most 22 more steps and can always take one until it has exited |
| `ProxyTheorems.WriterDecreases` | client/proxy.go:180-219 | The same measure argument for the writing loop |
| `ProxyTheorems.WritingLoopTerminates` | client/proxy.go:180-219 | At most 21 more steps, and one is always possible once the stop channel is closed |
| `ProxyHistory.LoopsAreHistory` | client/proxy.go:125-219 | Both loops, their helpers and eolSig are functions of the events alone: what conn.Read, conn.Write and Send were given and returned, which errors the loops took, what was signalled, what reached the socket |
| `ProxyHistory.DownIsHistory` | client/proxy.go:68-105 | How far Close has come, who called it, and whether the proxy is in the map, from the events alone |
| `ProxyHistory.OwnerIsHistory` | client/listener.go:133-156 | Where the owner is, from the events alone |
| `ProxyHistory.HappensExactly` | client/proxy.go:46-219 | A step of a proxied connection is possible if and only if the events so far allow it |
| `ProxyHistory.RunsAreHistories` | client/proxy.go:46-219 | So its runs are exactly the schedules in which each event was allowed when it came |
| `ProxyHistory.ErrorsAreReported` | client/proxy.go:154-169 | Every error that conn.Read, dataChannel.Send or conn.Write returned and a loop took, and every 100 ms time-out, is one failure of that loop, and the loop's very next step is its one attempt to signal it |
| `ProxyHistory.OwnerIsTold` | client/listener.go:135-140 | What lies in eolSig is what was signalled first since the owner received, and the owner ends with what lay there when it left its select, or with context.Canceled |
| `ProxyHistory.ReadFailureReachesOwner` | client/proxy.go:139-169 | A failed read or send that the loop waits for can be taken and signalled, and the owner then ends with exactly that error: end-of-file for end-of-file, a closed connection or a closed pipe, any other as it is |
| `ProxyHistory.WriteFailureReachesOwner` | client/proxy.go:187-212 | The same for conn.Write, where only a closed pipe becomes end-of-file, and for the 100 ms time-out |
| `ProxyHistory.NoSignalLost` | client/proxy.go:114-123 | Once any end of life was signalled, accepted or not, a signal lies in the slot or the owner has left its select |
| `ProxyHistory.ChunksAreSent` | client/proxy.go:139-148 | Send is given each chunk as conn.Read returned it; while Send refused none, what it accepted is all of them, up to the one in progress |
| `ProxyHistory.MessagesAreWritten` | client/proxy.go:180-219 | The socket has, of each message given to conn.Write, as many bytes as conn.Write said, in the order of its returns; a prefix of what arrived until the first error or time-out |
| `Tunnel.InvStep` | client/listener.go:97-106 | Two proxies and an ordered data channel: what has arrived at one end is a prefix of what the other end sent |
| `Tunnel.TunnelIsTwoProxies` | client/proxy.go:125-219 | A run of the tunnel is a run of each end, to which the data channel brings, in order, the chunks that the other end's Send accepted |
| `Tunnel.HappensExactly` | client/proxy.go:125-219 | A step of the tunnel is possible if and only if the events so far allow it |
| `Tunnel.TunnelIsTransparent` | client/proxy.go:125-219 | End to end, both ways, by what happened at the two sockets: while no write failed or timed out, the bytes written are a prefix of those accepted at the other end and, while no send was refused, of those read there; all of them when nothing is under way |
| `ProxyProcess.ProxyObject.constructor` | client/proxy.go:46-56 | A fresh proxy, with empty channels and an open latch, is the model's initial state |
| `ProxyProcess.ProxyObject.TrySendEoL` | client/proxy.go:114-123 | Accepted exactly if the slot is empty; it then holds the error, else it is left as it was |
| `ProxyProcess.ProxyObject.OwnerSelects` | client/listener.go:135-140 | The owner leaves its select with the signal in the slot, or with context.Canceled exactly if the context is done and preferred or the slot is empty |
| `ProxyProcess.ProxyObject.PassLatch` | client/proxy.go:70-75 | Refused exactly if the latch is taken |
| `ProxyProcess.ProxyObject.Execute` | client/proxy.go:46-219 | Every step of the creating goroutine, callbacks, owner, Close and both loops runs on the object exactly when the model enables it |
| `ProxyProcess.ProxyObject.ExecuteAll` | client/proxy.go:46-219 | Any schedule on the object refines the model's run |
| `ProxyProcess.ProxyObject.AwaitLock` | client/listener.go:161 | The lock is obtained: whoever holds it comes to the end of Close |
| `ProxyProcess.ProxyObject.OwnerCleansUp` | client/listener.go:151 | The owner's clean-up under interference ends, closing the proxy unless a callback did; its own steps are the look-up and, if it closes, the statements of Close |
| `ProxyProcess.ProxyObject.RunOwner` | client/listener.go:133-156 | The whole owner goroutine under interference: it waits only while no signal and no cancellation has come; once it has left its select it resolves with that error, the proxy is out of the map and closed exactly once. Of all steps recorded meanwhile its own are exactly its select, its look-up, the six statements of Close unless a callback had it, closing the data channel and resolving |
| `ProxyProcess.ProxyObject.NextStatement` | client/proxy.go:76-94 | Whatever runs in between, the next statement of Close follows; a stop signal is taken only by a loop parked in its select |
| `ProxyProcess.ProxyObject.Close` | client/proxy.go:68-105 | With other goroutines running between its statements, Close is not refused, leaves the connection and both stop channels closed once without a panic, and its own steps are its six statements |
| `ProxyProcess.ProxyObject.Interfere` | client/proxy.go:61-62 | Between two statements of a method any schedule of the other goroutines' steps may run, recorded under their own numbers |
| `ProxyProcess.ProxyObject.FillBuffer` | client/proxy.go:139 | A read overwrites the front of the reused buffer and nothing else |
| `ProxyProcess.ProxyObject.ReadInto` | client/proxy.go:139 | The helper's read puts its chunk at the front of the shared array, to be sent from there |
| `ProxyProcess.ProxyObject.SendChunk` | client/proxy.go:143-148 | Send is given what the array holds at that moment, and that is what counts as sent if it is accepted |
| `ProxyProcess.ProxyObject.ReadingLoop` | client/proxy.go:126-177 | On a closed connection the loop ends, after at most three failing iterations in its lifetime, under any interference; its own steps are those of the loop and its helper, no more than the measure allowed |
| `ProxyProcess.ProxyObject.WritingLoop` | client/proxy.go:180-219 | Once Close has closed its stop channel the loop ends, after at most three failing iterations, even while messages arrive; its own steps are those of the loop and its helpers, no more than the measure allowed |

## Left out

- gRPC, protobuf, JWT and login policy, logging, the command line and `cmd/_bak`: plumbing around the modelled core.
- pion/WebRTC, SDP and ICE processing, `exchangeICE`, `initWebRTCAsOfferer` and the agent's candidate loop: they drive external libraries.
- Clocks: every timer may fire at any step, so no bound in seconds is stated.
- Progress of the broker: nothing forces an enabled step to happen, so what can or can never happen is stated, and nothing that must.
- Contexts and streams: when they end is an input of the calls, turn by turn; nothing is said about when a client ends them.
- BrokerAnswers.AnswerCanStillArrive: the converse is stated from the moment an agent was handed the offer; before that, whether some agent will be is `CreatingRouter.HandlerCanReceive`, agent by agent.
- ProxyProcess.ProxyObject.WritingLoop: steps of helpers whose write timed out may be other goroutines' or its own; a helper is not given a number of its own.
- The endless loops of routers, actor and handlers are represented by the steps of their bodies; only loops that end are methods with loops.
- OffererServers.OffererServer.WaitForICECandidate: whether its send on `closeIceToAnsCh` is ever received is a parameter there; the rendezvous with the answerer's router is in `Broker.dfy`.
- The channel `stopListeningNewOffer`: nothing in the repository sends on it.
- A handler that has received a value but fails to pass it to its client: the value counts as delivered.
- `HostClient` objects are named by host id, since ids are fresh; registering one id twice is not modelled.
- Other proxies of the same listener: they share the map and its lock, which can only delay the steps of the one modelled.
- Futures.AwaitAny: the number of passes is a parameter, since the loop need not end when no future is ever ready.
- ProxyTheorems.DownstreamRelay: nothing is claimed of the socket after the first failure or timeout, because the loop goes on while its signal is accepted and writes may then overlap.
- ProxyTheorems.UpstreamRelay: after a refused chunk later chunks may still be sent, so only the subsequence is claimed.
