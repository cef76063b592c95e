# A verified model of an emulated MLS messaging system

The system emulates many MLS clients (RFC 9420) that take turns to change a group. It has a client with an
orchestrated commit protocol, an MQTT updater, a delivery service, a key-value store, and the message framing
of an MLS library. This project models the parts with the hardest behaviour and proves what they keep.

Everything is in Dafny 4.11: `dafny verify dfyconfig.toml` checks the whole project.

## The parts

**The orchestrated commit protocol.** Every active client keeps a slot table, and derives from the transcript hash of
each commit how the table changes and who commits next. Nobody coordinates them. The random generator is any function of
its seed and of the ranges asked of it so far.

- `Slots`, `Reservoir`, `Orchestrator`, `Client`: the table and the two objects that use it. `Orchestrator` and `User` have
  methods that are proved against the functions of `Slots` and `Client`.
- `History` is the reference: one sequence of moments (members, table, whose turn it is), computed from the commits alone.
- `Protocol` is a state machine of all clients: commits, deliveries in any order of the clients, missed messages, Welcomes
  that arrive late, and acknowledgements from anybody at any time. In all its runs all replicas agree with the history,
  and no epoch's token is granted twice. `Split` has the one case where this fails, with the exact condition. `Stall` shows
  a run into a state in which nobody can commit any more.
- `Choices` says which tables and which next committers the draws can lead to, and `Endless` when the draw of the next
  committer can end at all.
- `Subscriptions` and `Progress` are a machine in which a subscription takes time to complete, for joiners and for the
  creator. A run is careful if a client without a subscription commits only what draws itself again, or nobody. `Guard`
  proves that nobody misses a commit in careful runs, with a condition on the two branches that give a token away. `Rash`
  has the converse, and `Hasty` two failing runs. `Losses` and `Turns` say exactly when another commit can follow, and
  `Silence` has a run after which none can.

**The MQTT updater** (`Threads`, `Updater`, `Ledger`). The chain of threads that the updater spawns for a user is a state
machine with blocking joins, a lock that can be poisoned, and an agent that shares the lock. `Ledger` adds the MQTT
client and the broker, and states the matching of SubAcks to subscriptions.

**The delivery service** (`Delivery`, `DeliveryRuns`, `Registrations`, `Welcomes`, `GroupInfoLock`, `Answers`). One function
for each request handler, the object with the two handlers that loop, and theorems over all sequences of requests: what
is kept, and what is answered.

**The key-value store** (`FlatStore`, `StoreHistory`, `ProposalQueue`). One flat map refines eighteen maps, every call is
answered by the calls before it, and two of the maps together refine a first-in first-out queue for each group.

**Message framing** (`Tls`, `Framing`, `Canonical`, `Signing`, `PrivateMessages`, `Refusals`, `ExtensionLists`). Codecs with
readers that return what is left and accept only what is written, what is signed and verified and what is refused,
protection of private messages, and extension lists.

## What is assumed

- One `Draw` is shared by all clients: the same generator from the same seed, as the clients share one library.
- Names are not empty; `1 <= C <= P` for the numbers C of committers and P of slots.
- MLS accepts a commit only if it adds no member, removes only members, and its author stays: `History.Admissible`.
- The group's topic is totally ordered, and a client's Welcomes arrive in the order they were sent. Sending does not fail.
- A committer merges its commit right after it sent it, as it does with an orchestrator (user.rs, line 1652).
- The serializer, the codecs of proposals, commits and extension data, the signature scheme, the MAC and the
  authenticated encryption are parameters with the laws written in `Lawful`: what is written is read back, what is signed
  verifies, what is sealed is opened. What is refused is stated under further laws that the theorems name: codecs that
  read only what they write (`Canonical`), signatures that cannot be forged, tags without collisions, and ciphertexts that
  open under one additional data only.
- The variable-size length header is that of section 2.1.2 of RFC 9420, with only the shortest header accepted. The
  vector codec of the TLS library is not part of the repository: elements are written under the sum of their declared
  sizes and read until that sum is reached, without the checks of debug builds.
- Where the draw of the next committer never ends, the client does not answer: `Client.Responds` restricts the steps to
  those that end, and `Reservoir` and `Endless` say when they can.
- Request handlers take effect one by one, because each holds its locks until it answers.

## Where code and comments disagree

The model follows the code.

- A batch of proposals that removes an active member: the committer does not apply the removal to its own table, the
  receivers do (user.rs, lines 1852 to 1855). `Split` has the exact condition and a run with two tokens for one epoch.
- A comment says that new members never become committers under policy First, and that the last one always does under
  policy Last. Both hold exactly once the committer slots are taken (`FirstNewCommitters`, `LastInFront`).
- Under policy Last with one committer slot and several new members at once, the reroll loop never ends (`TwoAtOnce`);
  already the first commit of a group can be such a one (`FirstCommitNeverEnds`).
- After removals the draw can fall on a free slot (`EmptyWinner`). A run leads there, and then nobody ever commits
  (`GroupStalls`).
- A client that wins the draw waits for the acknowledgements of the others that were added, but not for its own
  subscription: a lone joiner and the creator get the token right after they have asked for the subscription (user.rs,
  lines 900 and 901, 1007 and 1064). They can then miss a commit, or cost somebody else one (`Hasty`, `RashCommitExact`),
  or wait for ever for an acknowledgement that came before the subscription (`Silence`).
- The delivery service is documented to refuse handshake messages of an equal epoch; it refuses smaller ones only
  (`RefusedExactly`).
- `commit` is documented not to sign the context of external commits; it is signed (`SameBytes`).
- Registering a known client answers 409 and replaces its entry nevertheless (`RegistrationStartsOver`).
- Consuming a key package does not use it up: the same one is handed out again (`SamePackageAgain`).
- Clearing the proposal queue means to delete the proposals but removes keys without a label, which do not exist
  (`QueueCleared`).

## Model

| member | source | states |
|---|---|---|
| `Slots.SeedArray` | emulated_client/emulated_client/src/orchestrator.rs:35-36 | the seed is the first 32 bytes of the transcript hash, and zeros after a shorter one |
| `Slots.StopsExists` | emulated_client/emulated_client/src/orchestrator.rs:95-99 | a reroll loop that ends has a first draw at which it ends |
| `Reservoir.AddOneEffect` | emulated_client/emulated_client/src/orchestrator.rs:61-78 | for every sample: the table stays packed and duplicate-free; the new member gets a slot if and only if a committer slot is free or the sample is a slot; somebody is evicted if and only if all slots are taken and the sample is a slot; how full the table is after |
| `Reservoir.AddAllEffect` | emulated_client/emulated_client/src/orchestrator.rs:42-79 | the additions of one commit, for every generator: packed, only old and new names, at least min(C, k + n) and at most k + n slots taken, nobody evicted while k + n names fit |
| `Reservoir.RemoveAllEffect` | emulated_client/emulated_client/src/orchestrator.rs:152-153 | removal takes out exactly the removed members and frees as many slots as were active |
| `Reservoir.RetainSplit` | emulated_client/emulated_client/src/orchestrator.rs:152-153 | removal keeps the order of those that stay: it can be done on any two parts of the table separately |
| `Reservoir.RemoveNobody` | emulated_client/emulated_client/src/orchestrator.rs:152-153 | removing nobody active changes nothing, including the order |
| `Reservoir.FirstKeepsFront` | emulated_client/emulated_client/src/orchestrator.rs:47-51 | policy First: no addition changes a taken committer slot, whatever is drawn |
| `Reservoir.FirstNewCommitters` | emulated_client/emulated_client/src/orchestrator.rs:47-51 | policy First, while the new members fit into the group: some new member becomes a committer if and only if a committer slot was free |
| `Reservoir.LastInFront` | emulated_client/emulated_client/src/orchestrator.rs:52-55 | policy Last: the last added member is in slot 0 if and only if the committer slots were exceeded or it is alone |
| `Reservoir.LastLayout` | emulated_client/emulated_client/src/orchestrator.rs:61-78 | policy Last: the other committers stay where they are and free committer slots are filled in order |
| `Choices.AddOnePlaces` | emulated_client/emulated_client/src/orchestrator.rs:61-78 | where everybody stands after one addition, for every sample |
| `Choices.RandomPlaces` | emulated_client/emulated_client/src/orchestrator.rs:56-78 | policy Random with the committer slots taken, for every generator: with d drawn from all members, the new member stands in slot min(k, d), whoever stood there moves to slot k if there is one, and for d beyond the slots nothing changes |
| `Choices.RandomReaches` | emulated_client/emulated_client/src/orchestrator.rs:56-78 | policy Random with k slots taken: some generator puts the new member into a slot if and only if it is one of the first k + 1 and below the number of members |
| `Choices.ChoicesOf` | emulated_client/emulated_client/src/orchestrator.rs:42-79 | whatever the generator, the table after a commit is that of one sample for each new member, from the range of the policy |
| `Choices.AnyChoice` | emulated_client/emulated_client/src/orchestrator.rs:42-99 | every choice of samples in the range of the policy, followed by every sequence of rolls, is made by some generator: each number is drawn anew |
| `Choices.OutcomeIsChosen` | emulated_client/emulated_client/src/orchestrator.rs:90-99 | a draw that ends falls on an acceptable committer slot of such a table |
| `Choices.AnyOutcome` | emulated_client/emulated_client/src/orchestrator.rs:90-99 | every acceptable committer slot of every such table can be drawn, after any number of rolls that are not acceptable |
| `Choices.ReactTells` | emulated_client/emulated_client/src/orchestrator.rs:81-114 | a client without a slot is inactive, the one drawn commits or waits for the other new members, everybody else listens and keeps waiting for what it waited for |
| `Reservoir.RerollCanEnd` | emulated_client/emulated_client/src/orchestrator.rs:90-99 | some generator ends the reroll loop if and only if a slot in range holds no new member |
| `Reservoir.FirstCanEnd` | emulated_client/emulated_client/src/orchestrator.rs:90-99 | under policy First the loop can end for every group |
| `Reservoir.LastCanEnd` | emulated_client/emulated_client/src/orchestrator.rs:90-99 | under policy Last with several new members the loop can end if and only if an old member keeps a committer slot |
| `Endless.FirstAlwaysCanEnd` | emulated_client/emulated_client/src/orchestrator.rs:90-99 | under policy First, for every history: whatever the member that is drawn commits, the draw that follows can end |
| `Endless.LastSometimesCanEnd` | emulated_client/emulated_client/src/orchestrator.rs:90-99 | under policy Last, for every history and every commit of the member drawn that adds several: the draw can end if and only if an old member keeps a committer slot |
| `Endless.TwoAtOnce` | emulated_client/emulated_client/src/orchestrator.rs:90-99 | under policy Last with one committer slot, for every history: a commit that adds several draws nobody, and its author keeps a slot if and only if one was free |
| `Endless.AddingTwoNeverEnds` | emulated_client/emulated_client/src/orchestrator.rs:90-99 | in every run under policy Last with one committer slot: the holder of the token gets an answer to a commit that adds several if and only if the table is full, so that it loses its slot |
| `Endless.FirstCommitNeverEnds` | emulated_client/emulated_client/src/orchestrator.rs:90-99 | in particular the creator's first commit: adding two never ends, for every draw and hash, unless the table has one slot |
| `Reservoir.EmptyWinner` | emulated_client/emulated_client/src/orchestrator.rs:135-137 | the draw can fall on a free slot if and only if fewer slots are taken than it ranges over |
| `Orchestration.Orchestrator.constructor` | emulated_client/emulated_client/src/orchestrator.rs:22-31 | the snapshot is cut or filled up to P slots; nothing is awaited |
| `Orchestration.Orchestrator.ProcessCommit` | emulated_client/emulated_client/src/orchestrator.rs:33-140 | the loops over additions and rerolls compute the reaction that `Slots.React` defines; the reroll loop ends exactly after the number of rerolls of that definition |
| `Orchestration.Orchestrator.RemoveMembers` | emulated_client/emulated_client/src/orchestrator.rs:142-161 | an inactive client keeps its table; an active one retains and refills |
| `Orchestration.Orchestrator.ProcessAck` | emulated_client/emulated_client/src/orchestrator.rs:163-187 | one acknowledgement fewer to wait for; Commit exactly at the last one |
| `History.CountByArithmetic` | emulated_client/emulated_client/src/user.rs:684-724 | the member count that receivers compute by arithmetic is the size of the group after the commit, which committer and joiners count |
| `History.AlwaysGood` | emulated_client/emulated_client/src/orchestrator.rs:127-132 | after every sequence of commits the table is packed, duplicate-free, of length P, and holds members only |
| `History.CommittersStayFull` | emulated_client/emulated_client/src/orchestrator.rs:63-66 | after every sequence of commits at least min(C, members) slots are taken, less one for each active member removed |
| `History.GrowingHasWinner` | emulated_client/emulated_client/src/orchestrator.rs:135-137 | without removals every slot that the draw ranges over holds a member |
| `History.OneByOneFillsUp` | emulated_client/emulated_client/src/orchestrator.rs:61-78 | without removals and with at most one addition a commit exactly min(members, P) slots are taken |
| `Client.OneSignalPerWin` | emulated_client/emulated_client/src/orchestrator.rs:101-114 | for every sequence of acknowledgements after a win that waits for n: exactly one Commit, at the n-th one from another client, and none before |
| `Client.User.constructor` | emulated_client/emulated_client/src/user.rs:848-903 | the Welcome branch: replay of the commit on the snapshot, at most one token |
| `Client.User.ConfirmCommit` | emulated_client/emulated_client/src/user.rs:1848-1892 | the committer's own commit: only a single removal is applied to its table, the merged group is counted |
| `Client.User.ProcessCommitMessage` | emulated_client/emulated_client/src/user.rs:668-791 | a received commit: all its removals, the count by arithmetic, and the group dropped when removed or inactive |
| `Client.User.ProcessAck` | emulated_client/emulated_client/src/user.rs:1970-1994 | own acknowledgements are ignored; a token exactly at the last awaited one |
| `Protocol.CreatorCommitsFirst` | emulated_client/emulated_client/src/user.rs:1053-1071 | creating a group always gives its creator the first token, for every generator and policy |
| `Protocol.ReactAgrees` | emulated_client/emulated_client/src/orchestrator.rs:81-114 | a client signals Commit or waits if and only if it is the one member that the table and the generator single out, and then waits for the other new members |
| `Protocol.RemovalsAgree` | emulated_client/emulated_client/src/user.rs:1852-1855 | unless a batch removes an active member, the committer's own removals have the effect of the receivers' |
| `Protocol.ConfirmAgrees` | emulated_client/emulated_client/src/user.rs:1871-1892 | the committer's replica after its commit is the history's next moment |
| `Protocol.ProcessAgrees` | emulated_client/emulated_client/src/user.rs:703-791 | a receiver's replica after a commit is the history's next moment, or it has dropped the group |
| `Protocol.JoinAgrees` | emulated_client/emulated_client/src/user.rs:848-888 | a joiner that replays the commit on the snapshot from before it arrives at the history's next moment |
| `Protocol.InvCommitted` | emulated_client/emulated_client/src/user.rs:1602-1653 | a commit keeps the invariant and extends the history by one moment |
| `Protocol.InvDelivered` | emulated_client/emulated_client/src/user.rs:668-791 | delivering any commit to any client keeps the invariant |
| `Protocol.InvJoined` | emulated_client/emulated_client/src/user.rs:836-905 | processing a Welcome keeps the invariant, also long after it was sent |
| `Protocol.InvAcked` | emulated_client/emulated_client/src/user.rs:1970-1994 | any acknowledgement from anybody at any time keeps the invariant |
| `Protocol.Safety` | emulated_client/emulated_client/src/client_agent/orchestrated.rs:92-159 | after every run there is one history that all replicas, Welcomes, tokens and grants agree with |
| `Protocol.OneTokenPerEpoch` | emulated_client/emulated_client/src/client_agent/orchestrated.rs:92-159 | in every run: no epoch's token is granted twice, no two tokens are held at once, and the i-th commit is for epoch i by the holder of that epoch's token |
| `Protocol.ReplicasAgree` | emulated_client/emulated_client/src/orchestrator.rs:33-99 | in every run two clients that hold the group in the same epoch have the same members and the same table |
| `Protocol.AtMostOneWaiting` | emulated_client/emulated_client/src/orchestrator.rs:101-111 | in every run at most one client waits for acknowledgements, it stands at the newest epoch, and no token is held meanwhile |
| `Protocol.TurnIsHonoured` | emulated_client/emulated_client/src/orchestrator.rs:101-114 | in every run tokens go only to the member drawn for their epoch, and once that member has arrived it either waits or has been granted the token, not both |
| `Protocol.StalledForGood` | emulated_client/emulated_client/src/orchestrator.rs:135-137 | after every run: if nobody is drawn for the newest epoch, no commit follows, whatever happens |
| `History.OneHistory` | emulated_client/emulated_client/src/orchestrator.rs:33-99 | the commits determine the history: there is one only |
| `Stall.GroupStalls` | emulated_client/emulated_client/src/orchestrator.rs:135-137 | for any three names, a run to a group of two in which nobody is drawn, so that no commit ever follows |
| `Split.BatchRemovalAgrees` | emulated_client/emulated_client/src/user.rs:1852-1855 | after every batch whose additions fit, committer and receivers have the same table if and only if nobody removed was active |
| `Split.OverflowCanAgree` | emulated_client/emulated_client/src/user.rs:1852-1855 | a batch that does not fit and removes an active member, after which the tables coincide again because the new member took that slot |
| `Split.FirstSplit` | emulated_client/emulated_client/src/user.rs:1852-1883 | at the end of every run in which all agreed so far: the committer of a batch that fits has the table of the history's next moment if and only if the batch removed nobody active |
| `Split.JoinersSideWithAuthor` | emulated_client/emulated_client/src/user.rs:848-888 | after every run in which all agreed so far, for every commit: those it adds get the table that its author has after it |
| `Split.BatchRemovalSplitsTheToken` | emulated_client/emulated_client/src/user.rs:1852-1883 | for any three names, a run with a batch that removes an active member, after which two clients hold the token of one epoch and their tables differ |
| `Subscriptions.TokenHeardAll` | emulated_client/emulated_client/src/orchestrator.rs:101-111 | a subscribed client with the token has heard every other member that the last commit added |
| `Subscriptions.TokenAlone` | emulated_client/emulated_client/src/orchestrator.rs:101-111 | a client that has the token but no subscription, and has not committed before, is the only member that the last commit added |
| `Subscriptions.DrawnByAuthor` | emulated_client/emulated_client/src/orchestrator.rs:81-99 | whom a commit draws is what its author computes from its own table before it commits |
| `Progress.DisciplineHolds` | emulated_client/emulated_client/src/user.rs:890-903 | the invariant of all careful runs, in which a client without a subscription commits only what draws itself again or nobody: who is still arriving, what each subscriber has heard, for how many acknowledgements the next committer still waits at least, and that whoever has a slot is on the way |
| `Guard.CarefulMissNothing` | emulated_client/emulated_client/src/user.rs:890-903 | in every careful run no client has missed a commit: everything from a subscriber's epoch on is still to be delivered to it, before that only commits of its own, and a client without a subscription is at the newest epoch |
| `Guard.TokenWaitsForEverybody` | emulated_client/emulated_client/src/orchestrator.rs:101-111 | in every careful run, while a token is held, subscribed or not: all Welcomes were processed, all others added by the last commit have acknowledged, and all other clients are subscribed |
| `Guard.UnsubscribedTokenIsAlone` | emulated_client/emulated_client/src/user.rs:899-902 | in every careful run, if a holder of the token has no subscription, the last commit added nobody else |
| `Guard.NobodyMissesACommit` | emulated_client/emulated_client/src/user.rs:890-903 | in every run in which the creator is subscribed before the first commit and no Welcome gives its addressee the token at once, no client has missed a commit; when clients subscribe is not restricted otherwise |
| `Guard.WelcomeGrants` | emulated_client/emulated_client/src/user.rs:899-902 | a Welcome gives its addressee the token at once if and only if the history draws it and nobody else was added |
| `Rash.RashCommitExact` | emulated_client/emulated_client/src/user.rs:900-901 | after every careful run: a client that commits without a subscription can miss a commit if and only if its own commit draws another member |
| `Rash.UnguardedWelcome` | emulated_client/emulated_client/src/user.rs:899-902 | the excluded branch, after every careful run: the joiner that gets the token at once can commit, and can then miss a commit if and only if that commit draws another member |
| `Rash.MissedForGood` | emulated_client/emulated_client/src/user.rs:561-599 | in every continuation a client that has missed a commit keeps its replica and never gets that commit |
| `Hasty.HastyJoinerMissesACommit` | emulated_client/emulated_client/src/user.rs:899-902 | for any three names, a run in which a joiner that wins the draw commits before it is subscribed and then misses the next commit for good |
| `Hasty.HastyCreatorCostsAJoiner` | emulated_client/emulated_client/src/user.rs:1007-1064 | for any three names, a run in which only the creator's first commit comes before its subscription; its late acknowledgement counts for somebody else's, and a later joiner misses a commit |
| `Losses.QuietNotLost` | emulated_client/emulated_client/src/user.rs:1970-1994 | no step without a commit loses an acknowledgement for the member whose turn it is, unless that member committed before its subscription |
| `Losses.LostForGood` | emulated_client/emulated_client/src/user.rs:1970-1994 | if the member whose turn it is waits for more acknowledgements than it can still get, no commit follows in any run |
| `Turns.TurnComes` | emulated_client/emulated_client/src/orchestrator.rs:101-114 | after every careful run: if a member is drawn and no acknowledgement is lost for it, deliveries, Welcomes, subscriptions and acknowledgements alone can lead to a state in which it is subscribed, holds the token and can commit |
| `Turns.GroupGoesOn` | emulated_client/emulated_client/src/orchestrator.rs:101-137 | after every careful run another commit can follow if and only if somebody is drawn for whom no acknowledgement is lost |
| `Silence.GroupFallsSilent` | emulated_client/emulated_client/src/user.rs:1007-1064 | for any three names, a careful run in which the creator commits before its subscription and draws itself; nobody misses a commit, but the acknowledgement it waits for is lost and no commit ever follows |
| `Threads.StepKeeps` | emulated_client/emulated_client/src/pubsub/mqtt_updater.rs:162-199 | every step of every thread keeps: threads chained in the order of spawning, at most one parsing, the parsed ones an initial segment |
| `Threads.ParsedInOrder` | emulated_client/emulated_client/src/pubsub/mqtt_updater.rs:162-199 | in every interleaving the messages given to `parse_message` are a prefix of those handed to threads, in that order |
| `Threads.NothingAfterPanic` | emulated_client/emulated_client/src/pubsub/mqtt_updater.rs:178-192 | once the lock is poisoned, by a thread or by the agent, no further message is parsed |
| `Threads.PoisonedByPanic` | emulated_client/emulated_client/src/pubsub/mqtt_updater.rs:176-192 | in every run the lock is poisoned if and only if a thread or the agent panicked while holding it |
| `Threads.OneAtATime` | emulated_client/emulated_client/src/pubsub/mqtt_updater.rs:173-192 | in every run, after a thread or the agent got the user nobody gets it before that one is done with it |
| `Threads.PanicIsFinal` | emulated_client/emulated_client/src/pubsub/mqtt_updater.rs:173-192 | in every run in which a thread panics while it parses: it stays the last that parsed, those before it have finished, and every thread after it, spawned before or later, waits or has aborted |
| `Threads.NeverStuck` | emulated_client/emulated_client/src/pubsub/mqtt_updater.rs:176-194 | in every run, panics included: unless the agent holds the lock, all threads have ended or one can move |
| `Threads.AllParsed` | emulated_client/emulated_client/src/pubsub/mqtt_updater.rs:162-199 | in every run without a panic in which all threads have ended, the messages parsed are those handed to threads, in that order |
| `Updater.TrimStart` | emulated_client/emulated_client/src/pubsub/mqtt_updater.rs:77 | what is left no longer starts with the prefix |
| `Updater.TrimmedCopies` | emulated_client/emulated_client/src/pubsub/mqtt_updater.rs:77 | copies of the prefix are removed from the front, and nothing else |
| `Updater.OnlyGroupsAcknowledged` | emulated_client/emulated_client/src/pubsub/mqtt_updater.rs:74-89 | a completed subscription is acknowledged, once and in its user's name, if and only if its topic is a group's |
| `Updater.GroupRecovered` | emulated_client/emulated_client/src/pubsub/mqtt_updater.rs:74-89 | the acknowledgement goes to the right group and topic if and only if the group's name does not itself start with the topic prefix |
| `Updater.MqttUpdater.constructor` | emulated_client/emulated_client/src/pubsub/mqtt_updater.rs:31-48 | no subscriptions, nothing pending, no threads |
| `Updater.MqttUpdater.HandleUnsubscribe` | emulated_client/emulated_client/src/pubsub/mqtt_updater.rs:138-155 | exactly that user loses that topic; the broker is told if and only if nobody else wants it |
| `Updater.MqttUpdater.HandleOutgoing` | emulated_client/emulated_client/src/pubsub/mqtt_updater.rs:106-117 | the packet id goes to the oldest entry without one, if there is one |
| `Updater.MqttUpdater.HandleSubAck` | emulated_client/emulated_client/src/pubsub/mqtt_updater.rs:64-98 | all entries with the id go; one acknowledgement for the first of them if it is for a group topic |
| `Updater.MqttUpdater.DeliverToUsers` | emulated_client/emulated_client/src/pubsub/mqtt_updater.rs:162-199 | for every order of the map: one new thread for each user subscribed to the topic, and for nobody else |
| `Ledger.SubAckMatches` | emulated_client/emulated_client/src/pubsub/mqtt_updater.rs:64-89 | a SubAck finds exactly the entry of the subscription that the packet id was sent for, and removes only it |
| `Ledger.StepKeeps` | emulated_client/emulated_client/src/pubsub/mqtt_updater.rs:106-137 | pending entries stay: those with an id first, each for its own subscription in flight, then the queued ones in order |
| `Ledger.OneAckPerSubscription` | emulated_client/emulated_client/src/pubsub/mqtt_updater.rs:64-89 | in every run the acknowledgements published are exactly those due for the completed subscriptions, in the order of completion |
| `Ledger.NoSubscriptionLost` | emulated_client/emulated_client/src/pubsub/mqtt_updater.rs:106-137 | in every run each subscription asked for is pending or completed, exactly once |
| `Ledger.WantedIsWished` | emulated_client/emulated_client/src/pubsub/mqtt_updater.rs:131-155 | in every run a user gets the messages of a topic if and only if its last request about that topic was to subscribe |
| `Ledger.ParsedInInboxOrder` | emulated_client/emulated_client/src/pubsub/mqtt_updater.rs:162-199 | in every run and interleaving, what a user parses is a prefix of what was published on the topics it had last asked to be subscribed to |
| `Delivery.FirstHolder` | emulated_client/delivery-service/ds/src/main.rs:345-355 | the client found has the hash reserved; none is found if and only if no client in the order has |
| `Delivery.FirstClaim` | emulated_client/delivery-service/ds/src/main.rs:343-357 | the secret found is reserved by the client found; none is found if and only if no secret is reserved by any client in the order |
| `Delivery.DeliveryService.constructor` | emulated_client/delivery-service/ds/src/main.rs:487-489 | an empty server with the given lock setting |
| `Delivery.DeliveryService.MsgSend` | emulated_client/delivery-service/ds/src/main.rs:367-417 | the epoch filter, copies to the recipients in order up to an unknown one, then to the sender, and the lock poisoned by a message that is neither handshake nor application |
| `Delivery.DeliveryService.PostWelcome` | emulated_client/delivery-service/ds/src/main.rs:332-358 | the two nested loops use up one reservation, for every order of the client map |
| `DeliveryRuns.PushAllEffect` | emulated_client/delivery-service/ds/src/main.rs:402-415 | each client gets one copy for each of its occurrences before the first unknown recipient, at the end of its queue |
| `DeliveryRuns.NothingLost` | emulated_client/delivery-service/ds/src/main.rs:402-446 | over every sequence of requests, what a client fetched since its registration followed by its queue is what was appended for it, in the order of acceptance |
| `DeliveryRuns.EpochsNeverFall` | emulated_client/delivery-service/ds/src/main.rs:380-400 | over every sequence of requests a client gets the handshake messages of a group with non-decreasing epochs |
| `DeliveryRuns.RefusedExactly` | emulated_client/delivery-service/ds/src/main.rs:380-400 | over every sequence of requests a handshake message is refused if and only if one of a larger epoch of its group was accepted since the last reset |
| `Registrations.PoisonedExactly` | emulated_client/delivery-service/ds/src/main.rs:375-378 | over every sequence of requests: the service has stopped answering about clients and messages if and only if somebody once sent a message that is neither handshake nor application |
| `Registrations.RegistrationStartsOver` | emulated_client/delivery-service/ds/src/main.rs:99-107 | after every sequence of requests a registration discards what was queued and reserved for the client, also when it is answered with 409, which is the case if and only if the client was registered; nobody else is affected |
| `Registrations.ResetStartsOver` | emulated_client/delivery-service/ds/src/main.rs:134-141 | after a reset, and any requests after it, the service is as if it had only got those requests, except for the group infos |
| `Registrations.InfosStandAlone` | emulated_client/delivery-service/ds/src/main.rs:237-326 | over every sequence of requests the group infos and their locks depend on the requests about group infos alone |
| `Registrations.PackagesExactly` | emulated_client/delivery-service/ds-lib/src/lib.rs:109-124 | over every sequence of requests a client has all key packages that it registered with and published since: handing them out uses none up |
| `Registrations.SamePackageAgain` | emulated_client/delivery-service/ds-lib/src/lib.rs:112-124 | until the client registers or publishes again, every consumption hands out the same key package |
| `Registrations.WelcomeArrives` | emulated_client/delivery-service/ds-lib/src/lib.rs:109-124 | from a key package handed out, over any requests that do not take its reservation, to the Welcome posted for it: the client fetches that Welcome, and nobody else does |
| `Welcomes.PostTakesOne` | emulated_client/delivery-service/ds/src/main.rs:342-357 | one post uses up exactly one matching reservation, and answers 204 if and only if there is none, for every order of the map |
| `Welcomes.PostsUseAll` | emulated_client/delivery-service/ds/src/main.rs:342-357 | as many posts as there are matching reservations use them all up |
| `Welcomes.CopiesMatchReservations` | emulated_client/delivery-service/ds/src/main.rs:342-357 | for every sequence of posts each client gets one copy for each of its reservations that was used up, and loses only matching ones |
| `Welcomes.EveryReservationServed` | emulated_client/emulated_client/src/user.rs:1825-1830 | posting a Welcome once for each of its hashes, each reserved by one client, gives every client its copies; a further post changes nothing |
| `Welcomes.WelcomesBounded` | emulated_client/delivery-service/ds-lib/src/lib.rs:109-124 | over every sequence of requests the Welcomes queued for a client and its open reservations are at most its key packages handed out |
| `Welcomes.NoWelcomeLost` | emulated_client/delivery-service/ds/src/main.rs:423-446 | over every sequence of requests, the Welcomes a client fetched since its registration followed by those still queued are those queued for it, in order |
| `GroupInfoLock.StaysLocked` | emulated_client/delivery-service/ds/src/main.rs:237-273 | after a grant a group stays locked until a post for it, also across a reset |
| `GroupInfoLock.GrantsSeparated` | emulated_client/delivery-service/ds/src/main.rs:237-326 | with the lock, between any two grants for a group there is a post for it |
| `GroupInfoLock.InfoIsLatest` | emulated_client/delivery-service/ds/src/main.rs:290-326 | every group info answered is the one posted last, with or without the lock and across resets |
| `Answers.SentAnswered` | emulated_client/delivery-service/ds/src/main.rs:367-417 | over every sequence of requests, when a message sent is answered with 500, makes its handler panic, or is answered with 409, 404 or 200: 200 if and only if it is accepted and the sender and all recipients are registered |
| `Answers.FetchAnswered` | emulated_client/delivery-service/ds/src/main.rs:423-446 | over every sequence of requests a registered client fetches the Welcomes it has not fetched yet, in order, and then the messages it has not fetched yet, in order; another one gets 404 |
| `Answers.NothingAfterCrash` | emulated_client/delivery-service/ds/src/main.rs:375-378 | once a handler has panicked, requests about clients are answered with 500 and change nothing |
| `Answers.PackageAnswered` | emulated_client/delivery-service/ds-lib/src/lib.rs:112-124 | over every sequence of requests a key package is handed out if and only if at least two are known, it is the one that came last, and it is reserved; nothing else changes |
| `Answers.PublishAnswered` | emulated_client/delivery-service/ds/src/main.rs:165-208 | key packages can be published if and only if the client is registered |
| `Answers.ClaimIsFirst` | emulated_client/delivery-service/ds/src/main.rs:343-357 | the secret that is served is the first that anybody has reserved, and the client the first in the order that has it |
| `Answers.WelcomeAnswered` | emulated_client/delivery-service/ds/src/main.rs:332-358 | over every sequence of requests, when a Welcome is answered with 500, 204 or 200, or makes its handler panic |
| `Answers.InfoAnswered` | emulated_client/delivery-service/ds/src/main.rs:237-273 | over every sequence of requests a group info is answered with 403 if and only if the lock is on and somebody has asked since the last post, and otherwise with the info posted last, or 204 without one |
| `Answers.ResetAnswered` | emulated_client/delivery-service/ds/src/main.rs:134-141 | after every sequence of requests a reset succeeds if and only if none of them crashed while holding a lock; a group info can always be posted |
| `FlatStore.LabelIsTold` | emulated_client/memory_storage/src/lib.rs:251-272 | the eighteen labels are prefix-free: each can be told from any key that starts with it |
| `FlatStore.StorageKeyInjective` | emulated_client/memory_storage/src/lib.rs:981-986 | two storage keys are equal if and only if label, key and version are |
| `FlatStore.KeyLayout` | emulated_client/memory_storage/src/lib.rs:981-986 | a storage key is the label, the key and the version in two bytes, in this order |
| `FlatStore.StepRefines` | emulated_client/memory_storage/src/lib.rs:90-237 | each operation on the flat map answers as on the map of its label, and keeps representing the family |
| `FlatStore.FlatRefinesFamily` | emulated_client/memory_storage/src/lib.rs:90-237 | every sequence of operations is answered as by one independent map for each label |
| `FlatStore.OthersUnchanged` | emulated_client/memory_storage/src/lib.rs:90-237 | an operation changes no entry of another label, key or version |
| `StoreHistory.StoreTells` | emulated_client/memory_storage/src/lib.rs:90-237 | after every sequence of calls each entry is what the calls for its label, key and version have left there |
| `StoreHistory.AnsweredByHistory` | emulated_client/memory_storage/src/lib.rs:90-237 | every call of every sequence is answered by what the calls before have left in its entry: the value or its absence, the items decoded one by one, or the error |
| `StoreHistory.ReadsLastWritten` | emulated_client/memory_storage/src/lib.rs:165-186 | an entry not used as a list is read as it was written last and not deleted since; absent if and only if there is none, an error if and only if it cannot be decoded |
| `FlatStore.MemoryStorage.WriteValue` | emulated_client/memory_storage/src/lib.rs:90-105 | only the entry is written |
| `FlatStore.MemoryStorage.UpdateList` | emulated_client/memory_storage/src/lib.rs:107-160 | an absent list counts as empty and is created; an unreadable one is left as it is with an error; an item is appended, or its first occurrence removed |
| `FlatStore.MemoryStorage.ReadValue` | emulated_client/memory_storage/src/lib.rs:165-186 | the entry decoded, nothing if there is none, an error if it cannot be decoded; the map unchanged |
| `FlatStore.MemoryStorage.ReadItems` | emulated_client/memory_storage/src/lib.rs:190-215 | the items of the list under the key as it is spelled out there, each decoded; an error if one cannot be, a panic if the entry is no list; the map unchanged |
| `FlatStore.MemoryStorage.DecodeItems` | emulated_client/memory_storage/src/lib.rs:210-214 | the loop over the items: all of them decoded in order, or an error if one cannot be |
| `FlatStore.MemoryStorage.DeleteValue` | emulated_client/memory_storage/src/lib.rs:219-236 | only the entry under the key as it is spelled out there goes |
| `ProposalQueue.QueueProposal` | emulated_client/memory_storage/src/lib.rs:277-298 | the proposal is written, then its reference appended |
| `ProposalQueue.RemoveProposal` | emulated_client/memory_storage/src/lib.rs:962-977 | the reference goes first, then the proposal; on an error the proposal stays |
| `ProposalQueue.ReadQueuedProposals` | emulated_client/memory_storage/src/lib.rs:390-410 | the references in order with their proposals, or nothing if one is missing or unreadable |
| `ProposalQueue.ClearProposalQueue` | emulated_client/memory_storage/src/lib.rs:843-865 | unlabelled keys and the list of references are removed |
| `ProposalQueue.Unlabelled` | emulated_client/memory_storage/src/lib.rs:856-857 | the keys that clearing removes one by one are no storage keys |
| `ProposalQueue.PairsGone` | emulated_client/memory_storage/src/lib.rs:852-858 | clearing removes exactly the unlabelled keys of the group's references |
| `ProposalQueue.QueueCleared` | emulated_client/memory_storage/src/lib.rs:843-865 | clearing empties exactly that group's queue, and every proposal of every group stays in the store |
| `ProposalQueue.StepAgrees` | emulated_client/memory_storage/src/lib.rs:277-298 | queueing, removing and clearing act on the represented queues of all groups as on lists |
| `ProposalQueue.QueueIsFifo` | emulated_client/memory_storage/src/lib.rs:390-410 | after every run in which no reference is queued while present, the proposals are read without a panic and in queue order, also after clearing and queueing again |
| `ProposalQueue.ReadBetweenSteps` | emulated_client/memory_storage/src/lib.rs:288-295 | a reader between the two locked steps of an operation sees the queue before queueing, or after removing |
| `ProposalQueue.RequeueThenRemove` | emulated_client/memory_storage/src/lib.rs:962-977 | queueing a reference and removing it leaves a readable queue if and only if it was not present before |
| `Framing.SenderRoundTrip` | emulated_client/openmls/src/framing/sender.rs:48-61 | every sender is read back, whatever follows, and has its declared size |
| `Framing.BodyRoundTrip` | emulated_client/openmls/src/framing/mls_content_in.rs:132-145 | a body without its type is read back under its content type |
| `Framing.ContentRoundTrip` | emulated_client/openmls/src/framing/mls_content.rs:34-41 | a content is read back, whatever follows, and has its declared size |
| `Framing.AuthRoundTrip` | emulated_client/openmls/src/framing/mls_auth_content.rs:53-69 | authentication data is read back if a confirmation tag is present just for commits |
| `Framing.AuthSizeIsExact` | emulated_client/openmls/src/framing/mls_auth_content.rs:310-332 | declared size and bytes written |
| `Framing.ReadIsWellTagged` | emulated_client/openmls/src/framing/public_message_in.rs:226-238 | whatever is read carries exactly the tags its sender and body call for |
| `Framing.PublicSizeIsExact` | emulated_client/openmls/src/framing/public_message.rs:291-316 | declared size and bytes written |
| `Framing.PublicRoundTrip` | emulated_client/openmls/src/framing/public_message_in.rs:226-238 | a public message is read back if and only if it has a membership tag just for members and a confirmation tag just for commits |
| `Framing.RemainderIsExact` | emulated_client/openmls/src/framing/public_message_in.rs:240-250 | the remainder cut off by the declared size is what followed the message |
| `Canonical.VectorExactly` | emulated_client/openmls/src/framing/mls_content.rs:34-41 | a vector is read if and only if it is encoded with the shortest length header |
| `Canonical.PublicExactly` | emulated_client/openmls/src/framing/public_message_in.rs:226-238 | bytes are read as a public message if and only if it is well tagged and they are what is written for it |
| `Canonical.StandardTypes` | emulated_client/openmls/src/framing/sender.rs:48-61 | sender types are numbered from 1 to 4, and content types from 1 to 3 |
| `Signing.SerializeTbs` | emulated_client/openmls/src/framing/mls_content.rs:215-237 | the bytes accumulated, and the count returned for them |
| `Signing.TbsSizeIsExact` | emulated_client/openmls/src/framing/mls_content.rs:239-257 | the declared size is the number of bytes signed |
| `Signing.SameBytes` | emulated_client/openmls/src/framing/mls_content.rs:215-237 | two parties' bytes are equal if and only if wire format and counted context are; the context counts for members and external commits only |
| `Signing.SignedVerifies` | emulated_client/openmls/src/ciphersuite/signable.rs:71-166 | what was signed verifies at every receiver with the same wire format and an agreeing context |
| `Refusals.TbsTells` | emulated_client/openmls/src/framing/mls_content.rs:215-237 | the bytes that two parties sign are equal if and only if wire format, content and, for members and external commits, context are |
| `Refusals.HeadBytes` | emulated_client/openmls/src/framing/mod.rs:124-130 | the signed bytes start with version 1 and the number of the wire format, 1 for public and 2 for private messages |
| `Refusals.SignContentTells` | emulated_client/openmls/src/ciphersuite/signable.rs:71-88 | what is signed is the label and then the payload, each told by its length |
| `Refusals.VerifiesOnlySigned` | emulated_client/openmls/src/ciphersuite/signable.rs:140-166 | with an unforgeable scheme a content verifies if and only if its signature is the one the signer would make |
| `Refusals.SignatureExactly` | emulated_client/openmls/src/ciphersuite/signable.rs:140-166 | with an unforgeable scheme the signature of a content verifies if and only if wire format, content and counted context are the signer's |
| `Refusals.OtherSignatureFails` | emulated_client/openmls/src/ciphersuite/signable.rs:155-164 | no other signature verifies for a content that was signed |
| `Refusals.NoContextNoSignature` | emulated_client/openmls/src/framing/mls_auth_content.rs:92-118 | a member or an external committer whose group context cannot be encoded signs nothing |
| `Refusals.SignedAsIs` | emulated_client/openmls/src/ciphersuite/signable.rs:71-94 | signing keeps the content and adds no tag |
| `Signing.TagSurvivesTheWire` | emulated_client/openmls/src/framing/public_message_in.rs:134-167 | a membership tag set by the sender is valid for the message read from the wire |
| `Refusals.MembershipExactly` | emulated_client/openmls/src/framing/public_message_in.rs:134-167 | with a MAC without collisions the tag of a message is valid if and only if content, authentication data and counted context are the sender's, and invalid otherwise |
| `Refusals.OneValidTag` | emulated_client/openmls/src/framing/public_message_in.rs:134-167 | a message is valid with one tag only; without one the tag is missing |
| `Signing.PublicVerifies` | emulated_client/openmls/src/framing/mls_auth_content_in.rs:117-218 | a public message of any of the four kinds of senders is read back and verifies |
| `Signing.MessageVerifies` | emulated_client/openmls/src/framing/mls_auth_content.rs:92-118 | what `new_and_sign` made verifies at every receiver with the signer's group context |
| `Signing.OutsideProposalVerifies` | emulated_client/openmls/src/framing/mls_auth_content.rs:159-203 | a proposal from outside the group verifies at every receiver, whatever its context |
| `PrivateMessages.XorWithReuseGuard` | emulated_client/openmls/src/ciphersuite/aead.rs:123-135 | in place: the first four bytes are combined with the guard, the others stay |
| `PrivateMessages.GuardedTwice` | emulated_client/openmls/src/ciphersuite/aead.rs:123-135 | applying the guard twice gives the nonce back |
| `PrivateMessages.GuardedBits` | emulated_client/openmls/src/ciphersuite/aead.rs:123-135 | a bit of the first four bytes is flipped if and only if it is set in the guard; the other bytes stay |
| `PrivateMessages.GuardsTellApart` | emulated_client/openmls/src/ciphersuite/aead.rs:123-135 | under one nonce two guards give the same nonce if and only if they are equal |
| `PrivateMessages.PaddingIsLeast` | emulated_client/openmls/src/framing/private_message.rs:283-291 | padded plaintext and tag have the least length that is a multiple of the padding size and long enough |
| `PrivateMessages.EncodePadded` | emulated_client/openmls/src/framing/private_message.rs:273-309 | body, authentication data and zeros, in this order |
| `PrivateMessages.PaddedRoundTrip` | emulated_client/openmls/src/framing/codec.rs:12-34 | the padded plaintext is read back |
| `Canonical.PaddedExactly` | emulated_client/openmls/src/framing/codec.rs:12-34 | a plaintext is read if and only if only zeros follow body and authentication data, and a confirmation tag is there just for commits |
| `Canonical.SenderDataExactly` | emulated_client/openmls/src/framing/private_message_in.rs:51-94 | sender data is read from exactly those bytes that start with its encoding |
| `PrivateMessages.SenderDataOpens` | emulated_client/openmls/src/framing/private_message_in.rs:51-94 | the sender data is recovered under the key derived from the ciphertext |
| `PrivateMessages.PrivateRoundTrip` | emulated_client/openmls/src/framing/private_message_in.rs:148-207 | a protected content comes back with sender, body, authentication data and additional data at every receiver with the same ratchet secret, if and only if it has a confirmation tag just for commits |
| `Refusals.HeaderIsBound` | emulated_client/openmls/src/framing/private_message_in.rs:148-207 | if the encryption binds its additional data, of all messages with the two ciphertexts of a protected one exactly that one is accepted: group, epoch, content type and additional data cannot be changed |
| `Refusals.ProtectRefuses` | emulated_client/openmls/src/framing/private_message.rs:138-263 | only a private message of a member is protected, and its header is that of the content |
| `PrivateMessages.CiphertextLength` | emulated_client/openmls/src/framing/private_message.rs:283-291 | with a positive padding size the ciphertext has the least possible length that is a multiple of it |
| `PrivateMessages.PrivateVerifies` | emulated_client/openmls/src/framing/private_message.rs:138-263 | signed, protected and unprotected, a message verifies at every receiver with the ratchet secret and the group context |
| `ExtensionLists.DeclaredSizeIsExact` | emulated_client/openmls/src/extensions/codec.rs:13-47 | the declared size is the number of bytes written if and only if the data is not 0x3fff or 0x3fff_ffff bytes long |
| `ExtensionLists.ExtensionRoundTrip` | emulated_client/openmls/src/extensions/codec.rs:56-126 | an extension is read back if and only if it is not an unknown one with a known code |
| `ExtensionLists.RemainderIsExact` | emulated_client/openmls/src/extensions/codec.rs:128-138 | the remainder is right if and only if the declared size is |
| `ExtensionLists.CheckedIsUnique` | emulated_client/openmls/src/extensions/mod.rs:351-370 | a list is accepted, unchanged, if and only if its types are unique |
| `ExtensionLists.ListRoundTrip` | emulated_client/openmls/src/extensions/mod.rs:248-263 | a list is read back in order if and only if its types are unique and none is an unknown one with a known code |
| `ExtensionLists.DeclaredIsExact` | emulated_client/openmls/src/extensions/codec.rs:13-47 | the elements' declared sizes add up to the bytes written if and only if no element has data of 0x3fff or 0x3fff_ffff bytes, and to more otherwise |
| `ExtensionLists.ListRemainderIsExact` | emulated_client/openmls/src/extensions/mod.rs:266-276 | the remainder after a list is right if and only if no element has data of those two lengths |
| `ExtensionLists.Extensions.Empty` | emulated_client/openmls/src/extensions/mod.rs:279-281 | the empty list, with unique types |
| `ExtensionLists.TakesOutOne` | emulated_client/openmls/src/extensions/mod.rs:330-340 | from a list with unique types exactly the extension of the type is taken out, and all others stay in their order |
| `ExtensionLists.StandardCodes` | emulated_client/openmls/src/extensions/mod.rs:186-197 | the codes of the known types |
| `ExtensionLists.Extensions.Add` | emulated_client/openmls/src/extensions/mod.rs:307-315 | added at the end if and only if the type is new; types stay unique |
| `ExtensionLists.Extensions.Remove` | emulated_client/openmls/src/extensions/mod.rs:330-340 | the extension of the type goes, the others keep their order; types stay unique |
| `ExtensionLists.Extensions.AddOrReplace` | emulated_client/openmls/src/extensions/mod.rs:320-324 | the old extension of the type is returned, the new one is last; types stay unique |
| `ExtensionLists.Extensions.TryFrom` | emulated_client/openmls/src/extensions/mod.rs:354-369 | the loop accepts a list, unchanged, if and only if its types are unique |

## Left out

- Groups are taken one at a time: a client's orchestrators for several groups do not share state.
- MLS group internals (ratchet trees, key schedule, validation, credentials): a group is its epoch, members and hash.
- The order of additions in a batch is taken to be the same in the committer's list and in the staged commit.
- The agent's choice of what to commit, sleeps, retries after errors, logging and profiling.
- Independent agents, which commit without an orchestrator.
- The gossip updater and brokers, HTTP encoding of requests, base64 and malformed bodies, and panics in log statements.
- A Welcome that reaches a client which is still subscribed to the topic from before its removal: excluded in `Subscriptions`.
- Wire codecs of key packages, Welcomes and group infos, and the outer message with its version.
- The secret tree: the ratchet secret of the sender and the one that the receiver finds are parameters.
- Constant-time comparison, memory zeroing and other properties that values do not have.
- Typed entries of the store other than the proposal queue: they are one call each to the operations modelled.
- Objects for the handlers of the delivery service without a loop, and for `Subscribe` of the updater: they are functions only, and take effect on values.
- Protocol.Safety: stated, like the theorems that follow from it, for runs whose batches remove nobody from the committer's table, because otherwise it is false (`Split.BatchRemovalSplitsTheToken`). `Split.FirstSplit` says exactly when the first other batch parts the tables, if its additions fit.
- Split.BatchRemovalAgrees: if the additions of a batch do not fit, only one direction is stated (`Protocol.RemovalsAgree`): the tables can coincide again (`Split.OverflowCanAgree`).
- Threads.PanicIsFinal: what the agent does after a panic of its own is not modelled; its panic poisons the lock like a thread's.
- FlatStore.MemoryStorage.ReadValue: one decoder stands for those of all types of entities.
- Guard.NobodyMissesACommit: stated for guarded runs, and `Guard.CarefulMissNothing` for careful ones, because otherwise it is false (`Hasty`). `Rash.RashCommitExact` is exact for the first commit that is not careful, and does not follow what later ones can do.
- Turns.TurnComes: stated for careful runs, and not for what is still possible after a commit that is not careful.
