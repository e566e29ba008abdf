# Telepathy-Qt4 replicas of remote state

Telepathy-Qt4 keeps local copies of what D-Bus services hold: the members of a channel's group, the
channels of a conference, an account's connection, the list of accounts.  Replies and signals
interleave, contact objects have to be fetched before a change can be shown, and operations may
finish after what they were for is gone.  This project models the event handling that keeps those
copies right and proves what it keeps.

Every component is built the same way.  A datatype holds the state, including calls awaiting their
reply and a history of what happened; functions give the effect of each reply, signal or finished
operation as one atomic step; lemmas show what every step keeps and what follows for whole runs; and
a class with the original's fields, whose methods follow the original's statements and loops (longer
ones in several parts), is proved to have exactly the effect the functions describe.  Replies,
signals and bus answers are inputs of the steps, so theorems about runs hold for every order in
which they can arrive.  Beside the invariants, which speak of the state and its history, stand
theorems that measure every run by the events alone: a fold over replies and signals says, with no
queue and no outstanding call, what they amount to, and the object is shown to come to just that.

| file | models |
|---|---|
| `Handles.dfy`, `GroupDelta.dfy` | handles, contacts, membership deltas and their meaning to the service |
| `GroupReplica.dfy`, `ChannelMachine.dfy` | the group part of a channel, and introspection around it, as a state machine |
| `GroupMembership.dfy` | what applying one delta does, in closed form |
| `ChannelInvariants.dfy`, `ChannelReadiness.dfy` | queue discipline, completion of FeatureCore, absence of deadlock |
| `ChannelStalls.dfy` | channels without a self handle: exactly which events leave them stuck |
| `ChannelHistory.dfy`, `ChannelConvergence.dfy` | the maps and their listeners over whole runs; agreement with the service |
| `ChannelMeaning.dfy` | what replies and signals mean, read off them alone, and that the channel comes to the same |
| `ChannelTold.dfy`, `ChannelSides.dfy`, `ChannelContacts.dfy` | what a channel asks and when it is ready and valid; the two sides of one-to-one channels; the contacts it wants for itself |
| `ChannelSignals.dfy` | the signals of a ready channel, one for each change, and what is remembered of changes |
| `ChannelFallback.dfy` | groups without properties: what they end up with, and exactly when it is right |
| `ChannelExamples.dfy` | concrete runs: a late report, and what happens where an assumption fails |
| `ChannelObject.dfy` | the channel's private object, refining the state machine |
| `ConferenceRemoval.dfy`, `ConferenceMeaning.dfy` | channels joining and leaving a conference; what the events say of them |
| `PendingLeave.dfy` | leaving a channel |
| `AccountConnection.dfy`, `ConnectionInTurn.dfy` | the queue of connection paths and FeatureCore of an account; what serving every entry in turn gives |
| `AccountManager.dfy`, `AccountLife.dfy` | the tables of accounts; the life of each account, read off the events alone |
| `AccountSet.dfy` | a filtered view of the accounts |
| `ChannelClasses.dfy`, `ChannelFactory.dfy` | channel classes, and the factory's lists sorted by specificity |
| `InvocationBuffer.dfy`, `ClientRegistrar.dfy` | the order-restoring buffer of dispatcher calls; registration tables |

## Assumptions and where they matter

Each assumption is a visible hypothesis, and where the code misses what it is meant to keep without
it, a lemma says exactly when.

- The self handle is not zero.  Otherwise a build with nothing to look up is skipped
  (`BuildSkipsIff`), and deltas can wait for ever (`InitialMembersStallIff`, `DeltaStallsIff`,
  `ContactsStallIff`); `GetsStuckIff` says exactly which events leave a channel waiting for nothing,
  and `StallWithoutSelfHandle` and `RemovalStallsWithoutSelfHandle` are runs to there.
- Contact lookups return every handle asked for, where exact sets are claimed.  Without it the maps
  are still safe (`ReplicaIsSafe`), but a pending handle that becomes a member without a contact
  disappears without a signal (`ListenerAgreesIff`).
- Handles enter the pending lists only from outside the group; a handle that moves between lists in
  another way ends up in two maps (`AgreesWithServiceIff`).
- The self handle is not renamed by a delta: such deltas are not applied, and leave the lists wrong
  whenever the handle was in the group (`SelfRenameIsDropped`, `RenameLeavesReplicaBehind`).
- Agreement whatever the service announces is claimed for the property path.  The fallback path
  ignores deltas that arrive before its last reply (`FallbackIgnoresDeltas`): it ends up right exactly
  if the replies put every handle where those deltas did or a later delta names it
  (`FallbackAgreesIff`, `UnheardMustCancel`, `FallbackMissesDelta`).  There the replies other than the
  one with the local pending members are assumed to succeed, and deltas to be well formed for what
  the replies describe as well.
- Change info of a local pending member can be overwritten by a build for another delta
  (`InfoSurvivesIff`), so at rest only its presence is claimed, and what it says when it
  is put there (`PendingMembersHaveTheirReason`).
- A conference channel does not come back before its departure is dealt with, where channels are
  measured by the events (`ShowsWhatHappened`).
- No conference channel joins under the path of a waiting departure of another channel; otherwise a
  departure announced twice can take out the new one (`DeparturesTakeOutTheirOwn`,
  `JoinStaysFreshIff`, `StaleDepartureTakesOutNewChannel`).
- Leaving succeeds at once, perhaps with the self handle still in the group, exactly when the self
  contact is missing or shown in no list, be it that it could not be built or that it belongs to an
  earlier self handle (`LeavesWithoutSelfContactIff`).
- The failure of a stale ready operation gives up an account that was added again
  (`ReadyAccountIsLostIff`, `StaleFailureGivesUp`).
- An account set created before its manager is ready misses accounts (`EntryIsSeenIff`).
- Client names hold no slash (`RoundTripIff`, `NameIsFreedIff`); the documentation of registerClient
  asks for that.
- The account manager and the account make their GetAll call once, apart from the manager's retries.
- Handle zero has no contact: no lookup returns one, where the details of signals are claimed
  (`SignalsAre`).
- A change of the self handle makes the channel fetch its contact only with the next change of members
  (`HasItsContacts`).
- An operation that fails leaves a non-empty error name, as PendingOperation makes sure.

## Model

| member | source | states |
|---|---|---|
| ChannelConvergence.Converges | TelepathyQt4/channel.cpp:672-786 | Property path: for every interleaving of service changes, flag changes, deliveries and replies, whenever no message is on its way, no delta waits and no build is in flight, the three maps have exactly the service's member, local pending and remote pending handles, and a listener that copied them at readiness and replayed every signal holds the same |
| ChannelConvergence.HistorySynchronises | TelepathyQt4/channel.cpp:672-1110 | The invariant behind it, at every state of every history: deltas accepted, then those still to be taken from the wire, lead from nobody to the service's sets, each well formed where it applies |
| ChannelConvergence.ActSynchronises | TelepathyQt4/channel.cpp:831-1110 | Every single action of service or channel keeps that invariant |
| ChannelConvergence.QuiescentAgrees | TelepathyQt4/channel.cpp:882-1110 | A synchronised system at rest agrees with the service |
| ChannelConvergence.AnnouncedOnce | TelepathyQt4/channel.cpp:3141-3188 | Announced by the plain signal alone or by both, a change contributes exactly one delta, provided the flags say which signals are sent |
| ChannelConvergence.ExactlyOneIsTaken | TelepathyQt4/channel.cpp:3141-3188 | Of the plain and the detailed signal of one change, in either order, exactly one is accepted |
| ChannelConvergence.InitialDeltasDescribe | TelepathyQt4/channel.cpp:753-782 | The synthesised initial deltas are well formed from nobody on and mean the service's reported sets |
| ChannelConvergence.SelfRenameIsDropped | TelepathyQt4/channel.cpp:3210-3231 | A delta that renames the self handle is not applied; the maps then agree with the service if and only if it removes strangers only and names others only for the lists they are in, so never when the handle was in the group |
| ChannelExamples.RenameLeavesReplicaBehind | TelepathyQt4/channel.cpp:3210-3231 | A concrete run: a ready channel at rest shows the old handle, the service has the new one |
| ChannelFallback.FallbackIgnoresDeltas | TelepathyQt4/channel.cpp:3190-3197 | On the fallback path every delta that arrives before the reply to GetSelfHandle leaves the channel unchanged |
| ChannelFallback.FallbackKeeps | TelepathyQt4/channel.cpp:2986-3068 | Fallback path, every interleaving of service changes, flag changes, the four replies, signals and builds: members, local pending members and deltas heard after the last reply lead to the view they describe, and a ledger of what was reported, missed and heard accounts for the service's sets |
| ChannelFallback.NextKeeps | TelepathyQt4/channel.cpp:2986-3068 | Every single move keeps that |
| ChannelFallback.FallbackEndsAt | TelepathyQt4/channel.cpp:3008-3068 | At rest the maps are what the replies describe followed by the deltas heard after them; the service has what all deltas since GetAllMembers make of what it reported then |
| ChannelFallback.FallbackAgreesIff | TelepathyQt4/channel.cpp:3008-3068 | At rest the maps are the service's sets if and only if every handle was put by the replies where the missed deltas put it, or is named by a delta heard later |
| ChannelFallback.UnheardMustCancel | TelepathyQt4/channel.cpp:3008-3068 | With no delta heard later, and none before the local pending members were reported: if and only if the missed deltas compose to nothing |
| ChannelExamples.FallbackMissesDelta | TelepathyQt4/channel.cpp:3008-3068 | A concrete history of the fallback at rest with a member missing |
| GroupMembership.AgreesWithServiceIff | TelepathyQt4/channel.cpp:882-1073 | For disjoint maps and disjoint lists, with every contact built: one delta takes the maps to the service's sets if and only if handles enter the pending lists only from outside the group |
| GroupMembership.AfterWorkIs | TelepathyQt4/channel.cpp:967-1073 | Closed form of applying a delta when only some contacts could be built: which handle ends in which map, and whose change info is left |
| GroupMembership.RemoveEachIs | TelepathyQt4/channel.cpp:1040-1062 | The removal loop drops exactly the named handles and collects exactly the contacts that were shown, in whichever map |
| GroupMembership.RemovalsAre | TelepathyQt4/channel.cpp:1040-1073 | Contacts reported removed are those of the removed handles that were in the group |
| GroupMembership.ListenerAgreesIff | TelepathyQt4/channel.cpp:967-1110 | Replaying the signal of one delta gives the maps' own sets if and only if contacts were built for every handle that moves from pending to member |
| GroupMembership.UnemittedTellsNothing | TelepathyQt4/channel.cpp:1075-1101 | A signal not worth emitting would not change a listener's sets |
| GroupMembership.InfoSurvivesIff | TelepathyQt4/channel.cpp:1028-1037 | An unrelated local pending member keeps its change info over a build if and only if its contact is not among those built, or the info is the same |
| GroupDelta.ApplyAllConcat | TelepathyQt4/channel.cpp:882-965 | Meaning and well-formedness of a stream of deltas split at any point |
| GroupDelta.ApplyKeepsDisjoint | TelepathyQt4/channel.cpp:933-961 | A delta with disjoint lists keeps three disjoint sets disjoint |
| ChannelHistory.ReplicaIsSafe | TelepathyQt4/channel.cpp:933-1073 | Every run with well-formed deltas, whatever lookups report: the three maps are disjoint, show nobody the service does not have in that list, and every local pending handle has change info |
| ChannelHistory.ReplicaIsExact | TelepathyQt4/channel.cpp:882-1110 | If lookups return all they were asked for: the maps are exactly what the applied deltas mean, and a listener from readiness on holds the channel's own sets after every event |
| ChannelHistory.StepKeepsReplica | TelepathyQt4/channel.cpp:831-1110 | One event keeps the safe replica |
| ChannelHistory.StepKeepsComplete | TelepathyQt4/channel.cpp:831-1110 | One event keeps the exact replica and the listener's agreement |
| ChannelHistory.ViewIsDisjoint | TelepathyQt4/channel.cpp:933-961 | A well-formed stream of deltas describes disjoint sets |
| ChannelMeaning.KnowsWhatItWasTold | TelepathyQt4/channel.cpp:603-786 | Every run, whatever queues and builds do in between: self handle, initiator, target, interfaces, flags and whether members are known are those a fold over the replies and signals alone gives (the self handle is the last non-zero one reported by connection, faked group, GetAll or GetSelfHandle, or whatever SelfHandleChanged or a rename said since), and the deltas taken, if well formed, mean the group the events mean |
| ChannelMeaning.RestsAsMeant | TelepathyQt4/channel.cpp:672-1110 | At rest, with complete lookups, the three maps have exactly the handles that fold gives |
| ChannelMeaning.RenamedHandle | TelepathyQt4/channel.cpp:3210-3231 | A rename counts exactly if one handle goes and one comes, in whichever of the three lists |
| ChannelSides.OneToOneHasItsSides | TelepathyQt4/channel.cpp:1112-1137 | Every run, from the moment the channel is told it has no group interface: it has members exactly if the target is a contact and neither it nor the connection's self handle is zero; its self handle is then the connection's, and at rest, with complete lookups, its members are exactly the two and nobody is pending |
| ChannelSides.ReportFakesExactly | TelepathyQt4/channel.cpp:1112-1137 | The same at the very reply that tells the interfaces, from any reachable state |
| ChannelTold.ReadyWhenTold | TelepathyQt4/channel.cpp:585-736 | A ready channel was told its interfaces; if it has a group its members are known and it listens to its signals; if it is a conference the conference's properties were answered |
| ChannelTold.ListensToItsGroup | TelepathyQt4/channel.cpp:722-751 | From being told its interfaces on, it listens to the group's signals if and only if it has a group |
| ChannelTold.AsksInTurn | TelepathyQt4/channel.cpp:585-736 | Every run: until told its interfaces a channel asks for them unless it failed; then every question its interfaces raise is answered or still to be answered |
| ChannelTold.ValidIff | TelepathyQt4/channel.cpp:2856-2911 | A channel is valid if and only if neither connection, channel type, target nor interfaces failed and it was not closed |
| ChannelContacts.HasItsContacts | TelepathyQt4/channel.cpp:831-880 | Every run with complete lookups and none skipped: a channel that has members and builds nothing has the contacts of its initiator and target, and of its self handle unless that changed with no build since |
| ChannelContacts.NoSelfContactWithoutHandle | TelepathyQt4/channel.cpp:863-873 | There, without a self handle it has no self contact |
| ChannelContacts.SelfContactAfterReply | TelepathyQt4/channel.cpp:3070-3097 | The reply to a build gives the self handle its contact, takes it away if the handle is among the invalid ones, and leaves it alone otherwise |
| ChannelContacts.LooksUpLoneInitiator | TelepathyQt4/channel.cpp:655-662 | With neither a group nor a contact as its target, the main properties make the channel look up its initiator, if it has one, and its own side with it, and nothing otherwise |
| ChannelSignals.SignalsAre | TelepathyQt4/channel.cpp:1075-1101 | Every run with complete lookups and well-formed deltas: from readiness on the signals are exactly one for each applied delta that changes somebody, in order, naming who joined which list, who left, the details, and the actor's contact |
| ChannelSignals.PendingMembersHaveTheirReason | TelepathyQt4/channel.cpp:1028-1037 | There, whoever an applied delta makes local pending is remembered with its details and its actor's contact |
| ChannelSignals.InitialReasonsAreTold | TelepathyQt4/channel.cpp:763-782 | Those who are local pending from the start are told with the actor, reason and message they were reported with |
| ChannelSignals.SelfRemovalIsRemembered | TelepathyQt4/channel.cpp:1086-1101 | There, what is remembered of the self handle's removal is what the change said when it came, then what its signal says once applied if it changes somebody; no other signal and no other build alters it |
| ChannelInvariants.StepKeeps | TelepathyQt4/channel.cpp:585-1110 | Every event keeps: at most one call and one build in flight; introspection in one of the orders the code can produce; a waiting delta implies a build in flight unless one was skipped; accepted deltas are applied, current or queued, once and in order; the detailed flag equals the flag bit |
| ChannelInvariants.RunKeeps | TelepathyQt4/channel.cpp:585-1110 | All of that in every state of every run, failed builds included |
| ChannelInvariants.ContactsKeep | TelepathyQt4/channel.cpp:3070-3097 | The reply to a contact build, successful or not, keeps it |
| ChannelInvariants.MembersKeep | TelepathyQt4/channel.cpp:3190-3255 | An incoming delta keeps it, queued behind a build or starting one |
| ChannelInvariants.MainPropsKeep | TelepathyQt4/channel.cpp:603-670 | Extracting main properties, with its fallbacks and faked group, keeps it |
| ChannelInvariants.UsableGroupPropsKeep | TelepathyQt4/channel.cpp:672-720 | Extracting group properties keeps it |
| ChannelInvariants.AnsweredCall | TelepathyQt4/channel.cpp:585-601 | Which calls are still queued when each reply arrives |
| ChannelReadiness.CompletesOnceAndSafely | TelepathyQt4/channel.cpp:585-601 | FeatureCore completes at most once in any run, and only with no call, queued step, conference introspection, delta or build outstanding; a channel may report readiness again once it is invalid, but the readiness helper ignores reports for an invalid proxy (readiness-helper.cpp, lines 653-661) |
| ChannelReadiness.CompletionIsSafe | TelepathyQt4/channel.cpp:1139-1168 | The same for one event from any reachable state |
| ChannelReadiness.ReportsAgainIff | TelepathyQt4/readiness-helper.cpp:653-661 | A channel that has completed calls setReady once more if and only if it became invalid since and the reply to a contact build finds no delta waiting and no self contact to retrieve; the helper ignores it |
| ChannelExamples.LateReportIsIgnored | TelepathyQt4/readiness-helper.cpp:653-661 | A concrete run: closed while the contacts of a change are built, a ready channel reports twice and completes once |
| ChannelReadiness.NoDeadlock | TelepathyQt4/channel.cpp:585-601 | As long as the self handle is known, every valid channel that is not ready awaits some reply, over fallback, faked-group and conference paths |
| ChannelReadiness.NeverSkips | TelepathyQt4/channel.cpp:831-880 | With a self handle no contact build is ever skipped |
| ChannelReadiness.StepIsCareful | TelepathyQt4/channel.cpp:585-1168 | Apart from applying the delta in flight an event changes no membership, only appends accepted deltas, emits nothing, and completes FeatureCore only with queue and build empty, where a listener's view starts |
| ChannelReadiness.BuildSkipsIff | TelepathyQt4/channel.cpp:863-873 | A build is skipped if and only if there is no handle at all to look up |
| ChannelStalls.GetsStuckIff | TelepathyQt4/channel.cpp:585-1110 | From any reachable state, exactly which events leave a valid channel neither ready nor awaiting any reply: a build's reply or initial members before a delta that needs nobody, a self contact to retrieve without a self handle, or the conference's reply behind such a delta |
| ChannelStalls.InitialMembersStallIff | TelepathyQt4/channel.cpp:753-785 | Initial members leave a delta waiting that nothing moves on exactly with no self handle, no member, no remote pending, no initiator or target to look up, and some local pending member; the channel is then stuck at once unless conference properties are still to be asked for |
| ChannelStalls.DeltaStallsIff | TelepathyQt4/channel.cpp:863-965 | From any reachable state, an accepted delta leaves some delta stalled exactly if no build is in flight and the delta that has waited longest names no unknown handle and no actor while there is no self, initiator or target handle to look up |
| ChannelStalls.ContactsStallIff | TelepathyQt4/channel.cpp:3070-3097 | The reply to a build leaves a delta stalled exactly if one is waiting and the first of them needs nobody in the group as it is then |
| ChannelExamples.StallWithoutSelfHandle | TelepathyQt4/channel.cpp:863-873 | A concrete run that gets stuck this way on its initial members |
| ChannelExamples.RemovalStallsWithoutSelfHandle | TelepathyQt4/channel.cpp:863-873 | A concrete run that gets stuck when its only member is removed while its contact is being built |
| GroupReplica.ChangedFlags | TelepathyQt4/channel.cpp:3099-3110 | A flag that was set stays unless removed, and one that was not is set exactly if added |
| GroupReplica.NothingToBuildIff | TelepathyQt4/channel.cpp:835-861 | When the list of handles to build is empty |
| ChannelObject.ChannelPrivate.ContinueIntrospection | TelepathyQt4/channel.cpp:585-601 | Dequeues and makes the next call, or reports readiness; exact new state |
| ChannelObject.ChannelPrivate.SetReady | TelepathyQt4/channel.cpp:1139-1168 | Reports FeatureCore to the readiness helper, valid or not; its assertion is the precondition |
| ChannelObject.ChannelPrivate.SetIntrospectCompleted | TelepathyQt4/readiness-helper.cpp:653-661 | The readiness helper completes the feature unless the proxy is invalid |
| ChannelObject.ChannelPrivate.BuildContacts | TelepathyQt4/channel.cpp:831-880 | Requests one build, or resets the self contact and skips; exact new state |
| ChannelObject.ChannelPrivate.HandlesToBuild | TelepathyQt4/channel.cpp:835-861 | The handles collected, branch by branch, are those of the specification |
| ChannelObject.ChannelPrivate.ProcessMembersChanged | TelepathyQt4/channel.cpp:882-965 | Serves the queue, refreshes the self contact or continues introspection; its four assertions are the precondition; exact new state |
| ChannelObject.ChannelPrivate.TakeUp | TelepathyQt4/channel.cpp:931-961 | The loops over a delta's four lists compute the work the delta asks for |
| ChannelObject.ChannelPrivate.InsertContacts | TelepathyQt4/channel.cpp:978-1014 | The first loop files every built contact where its handle was waited for |
| ChannelObject.ChannelPrivate.RefreshChangeInfo | TelepathyQt4/channel.cpp:1028-1037 | The second loop gives every built contact that has change info the current details |
| ChannelObject.ChannelPrivate.RemoveMembers | TelepathyQt4/channel.cpp:1039-1062 | The removal loop, whose contact variable is kept between iterations, equals removing handle by handle |
| ChannelObject.ChannelPrivate.UpdateMaps | TelepathyQt4/channel.cpp:967-1073 | All map updates of updateContacts together, and the signal they amount to |
| ChannelObject.ChannelPrivate.FinishDelta | TelepathyQt4/channel.cpp:1075-1103 | Remove info, signal if ready, and the end of the current delta |
| ChannelObject.ChannelPrivate.UpdateContacts | TelepathyQt4/channel.cpp:967-1110 | All of updateContacts: exact new state |
| ChannelObject.ChannelPrivate.GotContacts | TelepathyQt4/channel.cpp:3070-3097 | The reply to a contact build: exact new state |
| ChannelObject.ChannelPrivate.NowHaveInitialMembers | TelepathyQt4/channel.cpp:738-786 | Queues the initial deltas and serves the queue; its assertions are the precondition |
| ChannelObject.ChannelPrivate.QueueInitialMembers | TelepathyQt4/channel.cpp:753-782 | One delta for members and remote pending, one for each local pending member with its details |
| ChannelObject.ChannelPrivate.FakeGroupInterfaceIfNeeded | TelepathyQt4/channel.cpp:1112-1137 | Fakes a group for contact channels without the interface; whom it holds is ChannelSides.OneToOneHasItsSides |
| ChannelObject.ChannelPrivate.NowHaveInterfaces | TelepathyQt4/channel.cpp:722-736 | Queues group and conference introspection |
| ChannelObject.ChannelPrivate.ExtractMainProps | TelepathyQt4/channel.cpp:603-670 | Main properties or the three fallback calls; exact new state |
| ChannelObject.ChannelPrivate.Extract0176GroupProps | TelepathyQt4/channel.cpp:672-720 | Group properties or the four fallback calls; exact new state |
| ChannelObject.ChannelPrivate.OnConnectionReady | TelepathyQt4/channel.cpp:2932-2955 | Takes the connection's self handle, which was zero as asserted, and starts introspection; the assertions it leads to hold in every reachable state |
| ChannelObject.ChannelPrivate.GotMainProperties | TelepathyQt4/channel.cpp:2838-2854 | Exact new state; the assertions of nowHaveInitialMembers hold whenever this reply arrives |
| ChannelObject.ChannelPrivate.GotChannelType | TelepathyQt4/channel.cpp:2856-2871 | Continues, or invalidates the channel on error |
| ChannelObject.ChannelPrivate.GotHandle | TelepathyQt4/channel.cpp:2873-2889 | Takes the target, or invalidates the channel on error |
| ChannelObject.ChannelPrivate.GotInterfaces | TelepathyQt4/channel.cpp:2891-2911 | Exact new state; the assertions hold here too |
| ChannelObject.ChannelPrivate.GotGroupProperties | TelepathyQt4/channel.cpp:2965-2984 | Exact new state; the assertions hold here too |
| ChannelObject.ChannelPrivate.GotGroupFlags | TelepathyQt4/channel.cpp:2986-3006 | Fallback flags, without the properties flag |
| ChannelObject.ChannelPrivate.GotAllMembers | TelepathyQt4/channel.cpp:3008-3029 | Fallback members; local pending handles are appended without info |
| ChannelObject.ChannelPrivate.GotLocalPendingMembersWithInfo | TelepathyQt4/channel.cpp:3031-3048 | Overrides the vague local pending list, or keeps it on error |
| ChannelObject.ChannelPrivate.GotSelfHandle | TelepathyQt4/channel.cpp:3050-3068 | Ends the fallback; a zero self handle does not replace the connection's |
| ChannelObject.ChannelPrivate.GotConferenceProperties | TelepathyQt4/channel.cpp:3318-3396 | Ends conference introspection and continues |
| ChannelObject.ChannelPrivate.SetGroupFlags | TelepathyQt4/channel.cpp:788-829 | New flags switch between the two signals; whether anyone may be told |
| ChannelObject.ChannelPrivate.OnGroupFlagsChanged | TelepathyQt4/channel.cpp:3099-3139 | Filtered flag changes; exact new state |
| ChannelObject.ChannelPrivate.OnMembersChanged | TelepathyQt4/channel.cpp:3141-3170 | Ignored while the detailed signal is in use; otherwise the delta its arguments stand for |
| ChannelObject.ChannelPrivate.OnMembersChangedDetailed | TelepathyQt4/channel.cpp:3172-3188 | Ignored unless the detailed signal is in use |
| ChannelObject.ChannelPrivate.DoMembersChangedDetailed | TelepathyQt4/channel.cpp:3190-3255 | Accepts, ignores or turns a delta into a self rename; exact new state |
| ChannelObject.ChannelPrivate.Receive | TelepathyQt4/channel.cpp:3190-3247 | Its part before the queue is looked at, with every early return |
| ChannelObject.ChannelPrivate.OnSelfHandleChanged | TelepathyQt4/channel.cpp:3304-3316 | Remembers to retrieve the self contact when the handle differs |
| ChannelObject.NoMembersBefore | TelepathyQt4/channel.cpp:738-751 | Why those assertions hold: until such a reply arrives the group is untouched |
| ConferenceRemoval.RunKeeps | TelepathyQt4/channel.cpp:1215-1242 | Every run: at most one actor lookup in flight and its channel still there; otherwise the queue is empty; departures are dealt with first in, first out; every channel that joined is there or its departure was signalled exactly once |
| ConferenceRemoval.StepKeeps | TelepathyQt4/channel.cpp:3414-3499 | One event keeps that |
| ConferenceRemoval.ProcessSettles | TelepathyQt4/channel.cpp:1215-1242 | The recursion ends, by queue length, with the queue empty or one lookup in flight |
| ConferenceRemoval.SignalledAtMostOnce | TelepathyQt4/channel.cpp:3462-3499 | A channel that joined once is signalled gone at most once, however often its departure is announced, and exactly once if it is no longer there |
| ConferenceRemoval.DepartKeepsOriginals | TelepathyQt4/channel.cpp:3486-3493 | After a departure no original-channel entry for that channel is left |
| ConferenceRemoval.RunKeepsOriginals | TelepathyQt4/channel.cpp:3318-3499 | Original channels stay channels of the conference over every run whose GetAll reply lists only such |
| ConferenceRemoval.StepKeepsOriginals | TelepathyQt4/channel.cpp:3414-3499 | One event keeps original channels present |
| ConferenceRemoval.JoinStaysFreshIff | TelepathyQt4/channel.cpp:3414-3455 | A channel joining leaves every waiting departure aimed at the channel it was announced for if and only if its path is known already or all waiting departures of its path were announced for this very channel |
| ConferenceRemoval.RunStaysFresh | TelepathyQt4/channel.cpp:3414-3499 | In a run where only such channels join, waiting departures stay aimed at their channels and every departure signalled so far took out its own |
| ConferenceRemoval.DeparturesTakeOutTheirOwn | TelepathyQt4/channel.cpp:3462-3499 | In such a run the k-th departure announced, if signalled at all, carries the channel object its path stood for when it was announced |
| ConferenceRemoval.DepartureLeftWaiting | TelepathyQt4/channel.cpp:1215-1242 | A concrete run that leaves a duplicate departure waiting after its channel is gone |
| ConferenceRemoval.StaleDepartureTakesOutNewChannel | TelepathyQt4/channel.cpp:1222-1227 | The same run going on: the channel joins again as another object, and the duplicate takes out that one |
| ConferenceMeaning.ShowsWhatHappened | TelepathyQt4/channel.cpp:3328-3499 | Every run in which nothing comes back before its departure is dealt with: a path with no departure waiting is in the conference exactly as the events say, with that very channel object, and original channels are those the events say, apart from those of channels about to go |
| ConferenceMeaning.RestsWithWhatHappened | TelepathyQt4/channel.cpp:3328-3499 | At rest channels and original channels are exactly those the GetAll reply listed or a merge announced and no removal took out since |
| ConferenceMeaning.JoinEachIs | TelepathyQt4/channel.cpp:3328-3346 | Every channel of the list joins under its path, the first listed for it, unless one was there, which stays |
| ConferenceMeaning.WithOriginalsIs | TelepathyQt4/channel.cpp:3378-3388 | Every original handle listed stands for the last channel listed for it; others are kept |
| ConferenceMeaning.EachJoinEndsOnce | TelepathyQt4/channel.cpp:3414-3499 | Every run: each time an event brings in a channel under a path it does not have, the channel is there still or exactly one signal told of its departure |
| ConferenceMeaning.SignalsTellTheTruth | TelepathyQt4/channel.cpp:3462-3499 | Signals with an actor are those of departures that named one, with the contacts the lookups returned, in order; no other names one |
| ConferenceMeaning.AnnouncedAre | TelepathyQt4/channel.cpp:3441-3455 | Departures dealt with and waiting are those announced for channels that were there, in order, each once |
| ConferenceRemoval.ConferencePrivate.ProcessConferenceChannelRemoved | TelepathyQt4/channel.cpp:1215-1242 | Skips departures whose channel is gone, looks up an actor or departs at once; exact new state |
| ConferenceRemoval.ConferencePrivate.GotConferenceChannelRemovedActorContact | TelepathyQt4/channel.cpp:3462-3499 | Departs the head and goes on; exact new state |
| ConferenceRemoval.ConferencePrivate.ActorLookupFinished | TelepathyQt4/channel.cpp:3462-3479 | The head is there whenever the lookup's reply arrives |
| ConferenceRemoval.ConferencePrivate.EraseOriginals | TelepathyQt4/channel.cpp:3486-3493 | The erasing loop leaves exactly the entries of other channels |
| ConferenceRemoval.ConferencePrivate.OnConferenceChannelMerged | TelepathyQt4/channel.cpp:3414-3434 | Exact new state; a known path changes nothing |
| ConferenceRemoval.ConferencePrivate.OnConferenceChannelRemoved | TelepathyQt4/channel.cpp:3441-3455 | Queues a departure of a known path and processes the queue |
| ConferenceRemoval.ConferencePrivate.GotConferenceProperties | TelepathyQt4/channel.cpp:3328-3388 | The loops over channels and original channels |
| PendingLeave.SuccessMeansGone | TelepathyQt4/channel.cpp:1858-1942 | In every history with well-formed deltas, the operation finishes successfully only if the self contact is in none of the three lists, the channel became invalid, or the fallback close succeeded |
| PendingLeave.FailsOnlyIfCloseFails | TelepathyQt4/channel.cpp:1869-1942 | Every history: the operation closes the channel only after the service refused the removal, and fails only if the close failed as well |
| PendingLeave.AnsweredMeansFinished | TelepathyQt4/channel.cpp:1858-1942 | Every history: once it was told of invalidation or its close was answered, the operation is over and stays so |
| PendingLeave.RefusalFallsBack | TelepathyQt4/channel.cpp:1897-1942 | A refused removal falls back to closing, and the close decides |
| PendingLeave.FinishesAtMostOnce | TelepathyQt4/channel.cpp:1858-1942 | It finishes at most once over any interleaving of reply, membership signal, invalidation and close, and until then the reply it waits for is outstanding |
| PendingLeave.SignalMeansGone | TelepathyQt4/channel.cpp:1909-1923 | When a signal names the self contact removed, it is in none of the lists |
| PendingLeave.RemovedAreGone | TelepathyQt4/channel.cpp:1040-1101 | Nobody a signal reports removed is left in any list |
| PendingLeave.LeavesWithoutSelfContactIff | TelepathyQt4/channel.cpp:1879-1895 | The removal reply ends the operation at once if and only if there is no self contact or it is one in none of the lists, whatever the self handle is |
| PendingLeave.WaitingMeansShown | TelepathyQt4/channel.cpp:1879-1923 | If every contact build returns all it asks for and the self contact does not change from the request on: while a valid channel's operation waits, the self contact is shown, so no signal was missed |
| PendingLeave.RequestLeave | TelepathyQt4/channel.cpp:1967-1995 | Which of its four answers it gives: already left, not ready, a plain close, or a leave operation with its request outstanding |
| PendingLeave.LeaveOperation.OnRemoveFinished | TelepathyQt4/channel.cpp:1869-1907 | Waits, finishes, or falls back to closing |
| PendingLeave.LeaveOperation.OnMembersChanged | TelepathyQt4/channel.cpp:1909-1923 | Finishes when the self contact is among the removed |
| PendingLeave.LeaveOperation.OnChanInvalidated | TelepathyQt4/channel.cpp:1858-1867 | Finishes successfully unless finished |
| PendingLeave.LeaveOperation.OnCloseFinished | TelepathyQt4/channel.cpp:1925-1942 | Finishes as the close did, unless finished |
| AccountConnection.RunKeeps | TelepathyQt4/account.cpp:4044-4079 | Every run: the queue is non-empty exactly when one build is outstanding, for its head, which is non-empty and names another connection; the connection is what the last path dealt with stands for; listeners of the signals know it and hear only changes; FeatureCore is reported at most once, and while it may finish but has not a build is outstanding |
| ConnectionInTurn.ServedInTurn | TelepathyQt4/account.cpp:4044-4079 | Every run, whatever arrives while builds are under way: the connection is what serving all Connection entries so far in turn gives, by the results the builds had; the queue is the entries still waiting, and the build outstanding is for the first of them, which is neither a slash nor empty |
| ConnectionInTurn.DrainedConnection | TelepathyQt4/account.cpp:3929-3950 | With the queue empty the last Connection entry of all events decides: a slash or the empty string mean no connection; otherwise the connection has exactly that path, or there is none and the last build, which was for it, failed |
| ConnectionInTurn.ReportsAre | TelepathyQt4/account.cpp:4117-4144 | What was reported of FeatureCore, from the events alone: failure if the properties could not be had, success from the moment they were received and no Connection entry waits, nothing before and nothing twice |
| AccountConnection.ReportedInTime | TelepathyQt4/account.cpp:4117-4144 | At most one report; success only with nothing queued and no build outstanding |
| AccountConnection.StepKeeps | TelepathyQt4/account.cpp:3929-3950 | One event keeps all of that |
| AccountConnection.ProcessSettles | TelepathyQt4/account.cpp:4044-4079 | Working through the queue terminates with it empty or one build outstanding |
| AccountConnection.BuiltKeeps | TelepathyQt4/account.cpp:4233-4274 | The result of a build keeps it |
| AccountConnection.AccountPrivate.UpdateProperties | TelepathyQt4/account.cpp:3929-3950 | Announces a path, a slash meaning none, and starts the queue if it was empty |
| AccountConnection.AccountPrivate.ProcessConnQueue | TelepathyQt4/account.cpp:4044-4079 | The loop equals the recursive specification; whether the queue was drained |
| AccountConnection.AccountPrivate.GotMainProperties | TelepathyQt4/account.cpp:4117-4144 | Completes, defers or fails FeatureCore |
| AccountConnection.AccountPrivate.SetConnection | TelepathyQt4/account.cpp:4238-4265 | Every change of connection and of its path is signalled |
| AccountConnection.AccountPrivate.OnConnectionBuilt | TelepathyQt4/account.cpp:4233-4274 | Takes the result, dequeues, goes on and completes FeatureCore if that was waited for |
| AccountManager.RunKeeps | TelepathyQt4/account-manager.cpp:988-1101 | Every run: complete and incomplete accounts are disjoint and each incomplete one has a ready operation; every path added and not removed since is complete, incomplete or given up after a failure; entering and leaving alternate; a listener from readiness on knows the complete accounts; success implies the initial list; an unready manager with that list awaits an operation; at most six GetAll calls |
| AccountManager.StepKeeps | TelepathyQt4/account-manager.cpp:988-1101 | One event keeps all of that |
| AccountManager.FinishedKeeps | TelepathyQt4/account-manager.cpp:1033-1058 | The assertion against inserting an account twice holds, whichever stale operation finishes |
| AccountLife.LifeOfAccount | TelepathyQt4/account-manager.cpp:988-1101 | Every run and every path: absent, pending, complete with that very account object, or given up, exactly as the events say that concern it: the list of the successful GetAll reply, valid or not, validity changes, removals and ready operations that ended |
| AccountLife.SettledAccounts | TelepathyQt4/account-manager.cpp:168-174 | Once the list was received and no operation is left the manager is ready and has exactly the accounts the service has, by its list and the news after it, less those given up |
| AccountLife.ReadyIff | TelepathyQt4/account-manager.cpp:168-174 | FeatureCore is ready exactly if the list was received and at that moment or at the end of some later operation no account was pending |
| AccountLife.GivesUpAfterSix | TelepathyQt4/account-manager.cpp:988-1031 | Retries are the failed replies so far; the list is asked for again after each of the first five and given up, with failure reported, exactly after the sixth |
| AccountManager.EntersAgainOnlyAfterLeaving | TelepathyQt4/account-manager.cpp:1049-1055 | Between two announcements of one path lies its removal |
| AccountManager.ReadyAccountIsLostIff | TelepathyQt4/account-manager.cpp:1039-1044 | A successful operation is ignored exactly if an operation for its path failed since the path was added |
| AccountManager.StaleFailureGivesUp | TelepathyQt4/account-manager.cpp:1039-1044 | A concrete run in which the failure of a stale operation gives up an account added again |
| AccountManager.AccountManagerPrivate.AddAccountForPath | TelepathyQt4/account-manager.cpp:211-230 | Adds an unknown path and starts its operation; a known one changes nothing |
| AccountManager.AccountManagerPrivate.CheckIntrospectionCompleted | TelepathyQt4/account-manager.cpp:168-174 | Completes FeatureCore once nothing is incomplete |
| AccountManager.AccountManagerPrivate.GotMainProperties | TelepathyQt4/account-manager.cpp:988-1031 | Adds the listed accounts, retries, or reports failure |
| AccountManager.AccountManagerPrivate.OnAccountReady | TelepathyQt4/account-manager.cpp:1033-1058 | Completes or gives up an account; its assertion is proved |
| AccountManager.AccountManagerPrivate.OnAccountValidityChanged | TelepathyQt4/account-manager.cpp:1060-1074 | Ignored before the initial list; adds unknown accounts after it |
| AccountManager.AccountManagerPrivate.OnAccountRemoved | TelepathyQt4/account-manager.cpp:1076-1101 | Takes an account out of whichever table has it |
| AccountSet.HistoryKeeps | TelepathyQt4/account-set.cpp:67-157 | After every event of manager and accounts: wrappers are the manager's accounts, accounts are the plain comprehension of those the filter accepts, and replaying the signals as set operations onto the initial accounts gives them |
| AccountSet.EachChangeSignalledOnce | TelepathyQt4/account-set.cpp:83-157 | Every history, every event: at most one signal, and exactly for the account that the event put into the set or took out, or that the manager lost |
| AccountSet.NextKeeps | TelepathyQt4/account-set.cpp:67-157 | One event keeps that |
| AccountSet.InsertKeeps | TelepathyQt4/account-set.cpp:90-96 | A new account, accepted or not, keeps it |
| AccountSet.RemoveKeeps | TelepathyQt4/account-set.cpp:98-109 | A removal, signalled even for an account the filter did not accept, keeps it |
| AccountSet.ChangeKeeps | TelepathyQt4/account-set.cpp:126-148 | A property change keeps it |
| AccountSet.EntryIsSeenIff | TelepathyQt4/account-set.cpp:67-81 | A set that agrees goes on agreeing when an account becomes complete exactly if the manager is ready |
| AccountSet.AccountSetPrivate.constructor | TelepathyQt4/account-set.cpp:67-74 | A set just created is the comprehension, and has signalled nothing |
| AccountSet.AccountSetPrivate.InsertAccounts | TelepathyQt4/account-set.cpp:83-88 | The loop over all accounts |
| AccountSet.AccountSetPrivate.InsertAccount | TelepathyQt4/account-set.cpp:90-124 | Wraps and filters; exact new state |
| AccountSet.AccountSetPrivate.FilterAccount | TelepathyQt4/account-set.cpp:126-148 | Adds or takes out an account as the filter says, and tells so once ready |
| AccountSet.AccountSetPrivate.RemoveAccount | TelepathyQt4/account-set.cpp:98-109 | Drops wrapper and account and always tells so |
| ChannelClasses.SubsetIsPartialOrder | TelepathyQt4/channel-class-spec.cpp:127-145 | Subset is reflexive, transitive and antisymmetric with the empty class below all, and a proper subset has fewer properties |
| ChannelClasses.MatchesIff | TelepathyQt4/channel-class-spec.cpp:147-152 | Matching immutable properties is subset, except that a missing channel type or handle type is matched exactly by its default |
| ChannelClasses.UnsetUndoesSet | TelepathyQt4/channel-class-spec.cpp:164-181 | Setting a new property makes a class strictly larger and unsetting it restores the class |
| ChannelClasses.ChannelClassSpec.FromProperties | TelepathyQt4/channel-class-spec.cpp:57-68 | The class of immutable properties is the two defaults overridden by them |
| ChannelClasses.ChannelClassSpec.IsSubsetOf | TelepathyQt4/channel-class-spec.cpp:127-145 | The loop decides the subset relation |
| ChannelClasses.ChannelClassSpec.MatchesProperties | TelepathyQt4/channel-class-spec.cpp:147-152 | Decides matching |
| ChannelClasses.ChannelClassSpec.SetProperty | TelepathyQt4/channel-class-spec.cpp:164-171 | The new properties |
| ChannelClasses.ChannelClassSpec.UnsetProperty | TelepathyQt4/channel-class-spec.cpp:173-181 | The new properties |
| ChannelFactory.DispatchIsMostSpecific | TelepathyQt4/channel-factory.cpp:435-474 | After any registrations, null ones included: the constructor found is the latest one of the earliest-registered among the largest registered classes that are subsets of the query, and none is found exactly if there is no such class |
| ChannelFactory.BestIsUnique | TelepathyQt4/channel-factory.cpp:435-447 | That class is unique |
| ChannelFactory.LookupAlwaysSucceeds | TelepathyQt4/channel-factory.cpp:95-110 | Whatever is registered after the defaults, a constructor is found for every query |
| ChannelFactory.LookupReturnsWhatWasSet | TelepathyQt4/channel-factory.cpp:449-474 | Looking up a class just set returns what was set |
| ChannelFactory.DefaultDispatch | TelepathyQt4/channel-factory.cpp:95-110 | Without further registrations a channel that is of one of the default classes gets its constructor, whatever its other properties, and every other channel the plain one |
| ChannelFactory.DefaultConstructor | TelepathyQt4/channel-factory.cpp:95-110 | Without further registrations every query gets the constructor suited to its channel type, target handle type and requested flag, as a table of types says independently of the registrations |
| ChannelFactory.DefaultsAreExclusive | TelepathyQt4/channel-factory.cpp:138-381 | No two default classes other than the fallback can match one channel |
| ChannelFactory.AlwaysReflects | TelepathyQt4/channel-factory.cpp:449-474 | The list holds each registered class once, sorted by falling size and then by first registration, with its latest constructor |
| ChannelFactory.PutKeepsOrder | TelepathyQt4/channel-factory.cpp:459-473 | One insertion or replacement keeps that order |
| ChannelFactory.FeaturesRefineHistory | TelepathyQt4/channel-factory.cpp:403-433 | The features of a class are exactly those ever added for its subsets |
| ChannelFactory.FeaturesGrow | TelepathyQt4/channel-factory.cpp:403-433 | They only grow, with a more specific class and over time |
| ChannelFactory.AlwaysHoldsFeatures | TelepathyQt4/channel-factory.cpp:416-433 | The feature list holds each class once, in order, with the union of its additions |
| ChannelFactory.InsertHere | TelepathyQt4/channel-factory.cpp:459-473 | Stopping at the first smaller class misses no entry |
| ChannelFactory.ChannelFactoryPrivate.constructor | TelepathyQt4/channel-factory.cpp:95-110 | The default registrations |
| ChannelFactory.ChannelFactoryPrivate.SetConstructorFor | TelepathyQt4/channel-factory.cpp:449-474 | The search and insertion loop; a null constructor is ignored |
| ChannelFactory.ChannelFactoryPrivate.ConstructorFor | TelepathyQt4/channel-factory.cpp:435-447 | The first match; its final assertion is not reached |
| ChannelFactory.ChannelFactoryPrivate.FeaturesFor | TelepathyQt4/channel-factory.cpp:403-414 | The accumulating loop |
| ChannelFactory.ChannelFactoryPrivate.AddFeaturesFor | TelepathyQt4/channel-factory.cpp:416-433 | The search and insertion loop |
| InvocationBuffer.LongestFinishedPrefix | TelepathyQt4/client-registrar.cpp:215-255 | In any order of finishing: the calls processed are the longest prefix of the arrivals whose operations finished, in order and once each; the client is invoked exactly for those that succeeded and the others get the error |
| InvocationBuffer.NothingStaysBehind | TelepathyQt4/client-registrar.cpp:236-254 | When all operations have finished every call is processed |
| InvocationBuffer.RunKeeps | TelepathyQt4/client-registrar.cpp:318-356 | Every run: processed calls followed by buffered ones are the arrivals, and a non-empty buffer waits for its first operation |
| InvocationBuffer.MarkKeeps | TelepathyQt4/client-registrar.cpp:466-485 | The operation that finishes belongs to a buffered call, so the buffer is not empty, and exactly that call is marked |
| InvocationBuffer.DrainSettles | TelepathyQt4/client-registrar.cpp:487-511 | Draining stops at the first call that still waits |
| InvocationBuffer.ClientAdaptor.OnReadyOpFinished | TelepathyQt4/client-registrar.cpp:215-255 | Marks and drains; exact new state, with the assertion on the buffer proved |
| InvocationBuffer.ClientAdaptor.MarkOne | TelepathyQt4/client-registrar.cpp:220-234 | The search loop marks the first call waiting for the operation |
| InvocationBuffer.ClientAdaptor.Enqueue | TelepathyQt4/client-registrar.cpp:202-209 | A call joins the back of the buffer |
| ClientRegistrar.RoundTripIff | TelepathyQt4/client-registrar.cpp:948-1007 | Bus names survive the translation to object paths and back if and only if they hold no slash |
| ClientRegistrar.TablesAlwaysAgree | TelepathyQt4/client-registrar.cpp:869-1036 | After any calls, whatever the bus grants: clients and client objects have the same keys, paths are distinct, services are the names the stored paths stand for and the names owned on the bus |
| ClientRegistrar.RegistrationSucceedsIff | TelepathyQt4/client-registrar.cpp:869-972 | After any calls with documented names: a registration succeeds if and only if the client is registered already, or has a role, a name nobody is registered under, and the bus grants name and object |
| ClientRegistrar.ListsWhoIsRegistered | TelepathyQt4/client-registrar.cpp:869-1015 | After any such calls each client is listed exactly under the name of its last successful registration, unless it was unregistered since |
| ClientRegistrar.OffersItsRoles | TelepathyQt4/client-registrar.cpp:897-940 | The exported object offers the interfaces of exactly the roles its client has |
| ClientRegistrar.RegisterKeeps | TelepathyQt4/client-registrar.cpp:869-972 | Registering keeps that, and a failed registration changes nothing |
| ClientRegistrar.UnregisterKeeps | TelepathyQt4/client-registrar.cpp:984-1015 | Unregistering keeps that and removes exactly the client |
| ClientRegistrar.UnregisterUndoesRegister | TelepathyQt4/client-registrar.cpp:869-1015 | Registering and unregistering a client restores everything |
| ClientRegistrar.NameIsFreedIff | TelepathyQt4/client-registrar.cpp:948-1007 | Unregistering leaves the name taken exactly if it holds a slash |
| ClientRegistrar.ClientRegistrarPrivate.RegisterClient | TelepathyQt4/client-registrar.cpp:869-972 | Every refusal and clean-up; exact new state and result |
| ClientRegistrar.ClientRegistrarPrivate.UnregisterClient | TelepathyQt4/client-registrar.cpp:984-1015 | Exact new state and result |
| ClientRegistrar.ClientRegistrarPrivate.UnregisterClients | TelepathyQt4/client-registrar.cpp:1023-1036 | Unregistering all leaves every table empty |

## Left out

- D-Bus transport, value casting, generated interfaces, object parenting and debug output: replies and signals are inputs of the steps.
- The readiness helper apart from its refusal of reports for an invalid proxy, and the order in which it starts features: a ready flag.
- Pending operations, contact manager and proxy caches: outstanding calls, one contact object per handle and proxies as inputs.
- The fallback path when GetGroupFlags or GetAllMembers fails: the steps are in the state machine, but ChannelFallback compares channel and service only when they succeed.
- Emitting runs no listener code inside a step: a listener that calls back into the object while a signal is emitted is not modelled.
- Handle owners, contact identifiers, the error names of a closed channel, and the signals for flags and for the self contact.
- The contents of conference properties apart from channels and original channels, and initial invitees.
- Removed members to be dropped from the pending maps are kept as sets of handles, and handles to build are collected as a set: their order in the original's lists has no effect.
- Fields of the channel's private object that change together are kept in one record each (membership maps, pending work, parties, initial members).
- Group flags are the set of bits that are one.
- The wrong-type work-around for account paths and the supported account properties of the manager.
- The two retry intervals of the account manager: the timer is one step.
- Null and invalid account filters: a set with an invalid filter stays empty.
- The service's bus names, unique suffixes and pointers are taken as given strings; adaptors are the list of interfaces they export.
- The client, account and channel objects handed over by a dispatcher call: a call is its number and its ready operation.
- Channel request builders and the many create and ensure overloads of accounts, connection managers, capabilities: flat construction or scans with no property across functions.
- Copy-on-write sharing of channel classes, their hash and their static instances: classes are values, and the interface names of the library's channel types are an enumeration.
- GroupMembership.InfoSurvivesIff: says when the change info of an unaffected member stays, not that it always describes its own change, because the code overwrites it.
- AccountLife.SettledAccounts: leaves out accounts given up after a failed operation, because the code drops them even when a newer operation succeeds.
