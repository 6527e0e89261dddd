# Your Cloud: a model of what must hold while things fail

This project models, in Dafny 4.11, the parts of Your Cloud whose correctness is an argument about
order, failure and durability rather than about one function: the Auxiliary's flows over one
machine, the Daemon's delivery queue, the one-shot approval, the return of a service's data, the
Controller's durable stores, and the small printers and readers the flows rest on. It proves
properties of that model. Check the whole of it with `dafny verify dfyconfig.toml`.

How failure is modelled. An effect on a machine may succeed, fail without effect, or fail after a
part of its effect; a success means the whole of it happened. The nondeterministic choices are
written `*` in the methods, so a contract that verifies holds for every combination of them. A
machine or a disk is moreover `reliable` or not: on a reliable one every reading is made and every
effect whole, and there the contracts say what must succeed. A flow
appends every instant it goes through to a ghost trace, and a statement about the trace is a
statement about every instant of a run. A write of a state file may fail before its rename, after
its rename and before the directory is synchronised, or not at all; where the model says
`versions` or `files`, these are the contents a power cut could still bring back.

How the texts are modelled. The flows take their renderers and readers as a record of functions and
ask one thing of it, `Coherent`. The modules `MachineTexts` and `LinkTexts` build that record from
the files this product really writes and prove it coherent, so every statement about the flows holds
with the product's own texts.

## Map

| file | what it models |
|---|---|
| Machine, Egress, Deployment, Removal, Archives, Apply | one machine, its effects, and the flows of the confined services with their rollback |
| Isolation | what operations on some user services leave of every other one |
| Exchange | the multi-rename return of a service's data |
| Passage, PassageRuns | the private passage and its junctions |
| Lines, Units, Quoting, Sheet, SheetReadings, LinkRules, LinkTexts, LinkReadings, EgressRules, Directories, UserServices, MachineTexts | what is printed and what is read back |
| Tables, LinkVerdicts, EgressVerdicts | what a loaded table does to a packet, read from its text |
| Gaps, Delivery, Buffer, DeliveryQueue | the bounded delivery queue |
| Base64, Transcript, Envelope, Replay | the approval, its signed bytes and its anti-replay position |
| Dispatch, Registry, LaunchRuns | the history of launches |
| Identity, Pairing | the two files of an identity activation |
| Inventory | the declared inventory and its dated readings |
| Placement, Order, Wrappers | shared data, the order of names, carriers |

## What was found

Where the code does not do everything its comments say, the code is modelled as it is and the exact
condition is proved.

- A return that fails once it has renamed the data aside, and before the archive of it has been
  renamed into the reserved slot, can lose the state it was replacing. That state is then under the
  `.replaced` name alone, and the rollback, which is a return, begins by removing that name. Two runs
  lead there: the unpacked data could not be renamed into place (`Exchange.NotPutThenRollback`), or
  the archive could not be renamed into its slot (`Exchange.CutShortThenRollback`).
  `Exchange.AsideThenRollback` covers every disk a failed return may leave so: a rollback that
  succeeds, and one that stops as soon as it has cleared, keep the state exactly when it was held
  elsewhere before the return, or is empty and the returned data never came (or, for the one that
  stops, when the archive staged of it still stands). In every other failed return, and whenever the
  state was held elsewhere before, it is held after the rollback, whether that succeeds or fails
  (`Apply.ReturnOrUndo`). `Exchange.RollbackCanLoseTheReplacedState` is a machine on which both runs
  lose it.
- A junction "already held" is read from files and not from the kernel. A table that was written and
  never loaded is found held while the former port is still the bounded one
  (`PassageRuns.HeldAboveAnotherTable`). A caller can tell from the conclusions it was given: unless a
  pair was reported partial since the last one that settled the table, what is read as held is what
  the kernel bounds (`PassageRuns.Known`, `PassageRuns.Run`).
- A clock that steps back between two evicted neighbours makes a gap whose interval is reversed. The
  wire contract then refuses the envelope that carries it and the next opening refuses the state
  file: `Gaps.ExtendingStaysValidIff` and `Buffers.ReadableIff` are exact,
  `Gaps.AClockSteppingBackReversesAnInterval` is a witness, and a queue whose clock never steps back
  is always readable (`Buffers.OrderlyIsReadable`, `DeliveryQueue.Buffer.Enqueue`).
- "These signed bytes were already submitted" is answered from a bounded history: a digest is still
  known exactly when one of its records is open, or is followed in the order of acceptance by fewer
  than thirty-two ended records of its machine (`Dispatch.StillSpentIff`, and after each acceptance
  and conclusion `Registry.Store.Accept` and `Registry.Store.Conclude`).
  `Dispatch.AForgottenDigest` is a witness.
- Opening the history again trims nothing, so a machine may hold more ended records than the bound
  until its next acceptance or conclusion (`Registry.Requalifying`).
- An activation whose write failed after its rename leaves the process behind its own file. If the
  candidate then expires and another is prepared, the next start refuses the pair of files:
  `Identities.PreparedIsLoadableIff` is exact, and `Pairing.Manager.Open` is refused in no other run.
- "Once established it holds until a reading verifies the port again" is not so of a contradicted
  reading: one snapshot that does not see the machine, followed by one in which nothing listens, reads
  the element as never seen answering. `Inventory.ContradictionStandsIff` is exact,
  `Inventory.AContradictionIsForgotten` a witness.
- A listener's table lets in, by the passage too, UDP sent to the tunnel's own port, since the line
  that names it carries no interface (`Passage.Carried`, `LinkVerdicts.ListenerVerdict`).
- A removal is recognised as already done afterwards exactly when no container was left behind
  without its service (`Removal.Remove`).

## Model

| member | source | states |
|---|---|---|
| Apply.Run | internal/auxiliary/apply.go:416-517 | every instant of every run of approved pairs over any set of confined services, any effect failing or half-happening and rollbacks running: a running service has its sheet and its account in the loaded table, no image is fetched while its own service runs or while its account is refused, data and archives move only while the service they are copied from is down, and each operation keeps what is outside its account and its paths; at the end no service the pairs do not name, and no tree or archive outside their paths, has moved |
| Apply.ApplyPair | internal/auxiliary/apply.go:1230-1260 | a refusal or a finding of nothing to do leaves the machine and its trace as they were; success reaches the approved state, for an archive operation the contents of the data and of the slots; a failure attempts exactly one rollback from the machine it left, and a rollback that succeeds reaches its own state; outside the paths of the two nothing moves |
| Apply.AttemptRollback | internal/auxiliary/apply.go:1271-1360 | the rollback is one ordinary operation, counted once, safe at every instant, successful only when its state is reached, contents included, and bounded by its own paths |
| Apply.ApplyDeploymentTwice | internal/auxiliary/userservice.go:219-361 | the deployment that succeeded, applied again, reports no change or refuses, and the machine and its trace are where the first left them |
| Apply.ReturnOrUndo | internal/auxiliary/snapshot.go:246-305 | a return beside its frozen rollback: whatever fails in either, the replaced state is held afterwards when it was held elsewhere before, and unless the failure left it under `.replaced` alone; of a rollback that succeeds the condition is exact |
| Isolation.RunBeside | internal/auxiliary/userservice.go:73-115 | no run of operations on other user services moves a tree or an archive under the home of this one, or its sheet, service, container or account |
| Isolation.FootprintIsAtHome | internal/auxiliary/userservice.go:91-115 | every path an operation on a user service may touch is under that service's home |
| Apply.Perform | internal/auxiliary/apply.go:416-517 | each operation leaves the machine untouched, reaches its state, or fails with the data and the archives where a failure of it may leave them; it keeps what belongs to others, every tree and archive outside its paths, and the machine safe; on a reliable machine what it finds feasible it does |
| Apply.HeldIsConfined | internal/auxiliary/egress.go:269-288 | in a machine that only safe runs have touched, a deployment recognised as held really is confined by the kernel |
| Deployment.Deploy | internal/auxiliary/private.go:66-201 | held exactly when the approved state is read, whatever the prior sheet, data, secrets or table; success converges on that state with the account in the loaded table, the unit enabled, the image fetched and the port asked last; others and all data are kept; on a reliable machine whose sheets all have their accounts it is held or succeeds |
| Deployment.ObserveDeployment | internal/auxiliary/userservice.go:219-303 | the read-only stretch decides held if and only if sheet, service, container image, data, values and confinement are all as approved |
| Deployment.DurableDataHeld | internal/auxiliary/userservice.go:454-465 | true if and only if every directory the volumes need is held |
| Deployment.EnsureHoldings | internal/auxiliary/userservice.go:304-315 | data and generated values exist afterwards, and none that existed is replaced or removed |
| Deployment.RefetchImage | internal/auxiliary/private.go:158-184 | stop, leave the table, fetch, join the table: the fetch is never refused by the table and never beside the running service, and the account is named in the table before anything starts |
| Deployment.PublishService | internal/auxiliary/private.go:185-199 | at every instant nothing is generated but the sheet written before, nothing runs but what was generated, nothing is asked but of a service that runs; the service runs the sheet that was written |
| Deployment.PublishedHolds | internal/auxiliary/egress.go:308-343 | writing the sheet of an account already named leaves the confinement it recomputes equal to the one that was posed |
| Deployment.FetchIsUnrefused | internal/auxiliary/private.go:166-181 | once an account left the table, its identifier is not among those the kernel refuses |
| Removal.Remove | internal/auxiliary/userservice.go:378-444 | sheet and service gone, table exactly that of the others or absent, image gone, data, values and archives kept; recognised afterwards iff no orphan container was left |
| Removal.ObserveRemoval | internal/auxiliary/private.go:222-261 | decides already-removed if and only if no sheet, service or container is there and the confinement is that of the others |
| Removal.Dismantle | internal/auxiliary/private.go:266-289 | at every instant a sheet is gone only with its service down and the image only with its sheet gone; the table is not touched |
| Egress.ConfinedAccounts | internal/auxiliary/egress.go:308-343 | two sources and a sort give the one table of exactly the confined accounts whose sheet is held |
| Egress.ConfinementJoinedBy | internal/auxiliary/egress.go:378-396 | the one table of those accounts and the joining one, whether it was named or not |
| Egress.ConfinementLeftBy | internal/auxiliary/egress.go:398-410 | the one table of those accounts but the leaving one |
| Egress.ReadEgressBounds | internal/auxiliary/egress.go:269-288 | held if and only if both files are those of the desired accounts, or neither is there when there are none |
| Egress.SettleEgressBounds | internal/auxiliary/egress.go:420-425 | success leaves exactly the confinement of the desired accounts; no instant of it frees a running service that stays |
| Egress.PoseEgressBounds | internal/auxiliary/egress.go:439-450 | at every instant the unit is as found or the kernel already refuses the identifiers; success is exactly the settled bounds |
| Egress.RemoveEgressBounds | internal/auxiliary/egress.go:460-475 | at every instant the table stands or no unit is left to pose it at boot; only what was found is taken away |
| Egress.MovedIsGuarded | internal/auxiliary/egress.go:439-475 | a table that covers the running services may be replaced by another that does without an unsafe instant |
| Machine.TableIsUnique | internal/auxiliary/egress.go:308-343 | two sorted lists of the same rows are one list, so two readings of one machine render one table |
| Machine.TableConfines | internal/auxiliary/egress.go:112-147 | the identifiers of a table are exactly those of the accounts it names |
| Machine.Executor.EnsureServiceSecrets | internal/auxiliary/system.go:1273-1308 | a missing value is generated once, a held one is kept, and the environment file names exactly the declared keys with their values |
| Machine.Executor.EnsureServiceData | internal/auxiliary/system.go:1151-1190 | directories are only ever added, and all of them on success |
| Machine.Executor.WriteEgressRules | internal/auxiliary/system.go:1693-1699 | file, then kernel: a failure may stop between the two |
| Machine.Executor.RemoveEgressRules | internal/auxiliary/system.go:1710-1720 | kernel, then file |
| Machine.Executor.StartService | internal/auxiliary/system.go:393-396 | what starts is what the manager generated at its last reload, never a sheet written since |
| Archives.SnapshotService | internal/auxiliary/snapshot.go:121-174 | the slot is written once with the whole of the data's tree, while the service is down, and whatever fails it is absent or whole; no other slot and no tree moves, and the service is put back as it was found |
| Archives.DiscardSnapshot | internal/auxiliary/snapshot.go:188-215 | exactly one archive is destroyed, or nothing |
| Archives.RestoreService | internal/auxiliary/snapshot.go:246-305 | the data becomes the slot's tree and the reserved slot the old data, while the service is down, and it is put back as found; whatever fails, both trees are still held, and no other tree or archive moves |
| Archives.RestartAndProve | internal/auxiliary/snapshot.go:314-328 | a service found down stays down; one that ran is started and asked |
| Archives.ArchiveServiceData | internal/auxiliary/system.go:1505-1537 | a taken slot is never replaced, and whatever fails a slot is absent or holds the whole tree |
| Exchange.Storage.ExchangeServiceData | internal/auxiliary/system.go:1617-1674 | at every step and on every error path both the replaced tree and the archive's tree are still held; success is exactly the exchange; nothing but the data, its temporary names and the reserved slot moves |
| Exchange.Storage.StageArchive | internal/auxiliary/system.go:1547-1575 | the archive is complete under its temporary name before the slot can move, even when archive and slot are one file |
| Exchange.ReturnTwiceIsIdentity | internal/auxiliary/snapshot.go:246-305 | returning to the reserved slot twice is the identity on the data and on that slot |
| Exchange.ExchangeKeeps | internal/auxiliary/system.go:1617-1674 | exactly which trees a successful return keeps |
| Exchange.FailedReturnThenRollback | internal/auxiliary/system.go:1617-1674 | after a failed return, a rollback that succeeds keeps the replaced state iff it is held beside its `.replaced` name |
| Exchange.AnyRollbackKeeps | internal/auxiliary/system.go:1617-1674 | unless the replaced state is under `.replaced` alone, a rollback keeps it, succeed or fail |
| Exchange.AsideThenRollback | internal/auxiliary/system.go:1617-1674 | wherever a failure left the state under `.replaced` alone: a rollback that succeeds, and one that stopped once it cleared, keep it iff it was held elsewhere before, or is empty and the returned data never came, or (stopped) its staged archive still stands |
| Exchange.HeldElsewhereIsKept | internal/auxiliary/system.go:1617-1674 | a state held elsewhere before the return is held after any rollback of it |
| Exchange.EffectsExchange | internal/auxiliary/system.go:1617-1674 | the effects of a return, in its order, compose to the exchange |
| Exchange.CutShortThenRollback | internal/auxiliary/system.go:1655-1674 | the run whose archive was not renamed into the slot: after its rollback, complete or stopped once it cleared, the state is held iff it was held elsewhere to begin with |
| Exchange.NotPutThenRollback | internal/auxiliary/system.go:1654-1662 | the run whose unpacked data was not renamed into place: the same, or an empty state |
| Exchange.RollbackCanLoseTheReplacedState | internal/auxiliary/system.go:1655-1674 | a machine on which either run, effect by effect, loses the state |
| Exchange.SlotsAreApart | internal/auxiliary/profile.go:309-311 | distinct slots are distinct files, and none is another's temporary file |
| PassageRuns.Run | internal/auxiliary/link.go:304-740 | at every instant of every run of prepare, join, part and withdraw with failures and rollbacks, a described or standing peer has the table of one role and one port in the kernel; unless a pair was reported partial since the last one that settled the table, the table is the one its file describes and every junction read as held is the one the kernel bounds |
| Passage.PeersAreConfined | internal/auxiliary/linkrules.go:89-234 | wherever there is a peer, the kernel judges every packet as one role and one port allow: nothing is relayed, and only replies or TCP to the other end leave |
| PassageRuns.ApplyPair | internal/auxiliary/apply.go:1230-1360 | refusals touch nothing, one rollback at most, reached states; a junction that acted and whatever found or left no bound put the file's own table in the kernel |
| PassageRuns.JoinThenPart | internal/auxiliary/link.go:657-740 | joining then parting restores both prepared files byte for byte and leaves no table in kernel or file, no unit, no enablement and no peer |
| PassageRuns.PrepareAfterJoin | internal/auxiliary/link.go:337-360 | a preparation replayed over a junction, found or just made, finds it done and rewrites nothing while the interface stands, as it does after a junction under a running manager; where the interface is missing the junction's files come out as they were |
| PassageRuns.JoinedIsPrepared | internal/auxiliary/link.go:590-606 | a junction's files are its role's heads above exactly its two tails |
| PassageRuns.OnlyItsOwnPlanParts | internal/auxiliary/link.go:657-712 | a junction can be undone by a plan iff it names the same role and the same key |
| PassageRuns.HeldAboveAnotherTable | internal/auxiliary/linkrules.go:388-413 | a state found held while the kernel bounds the former port |
| Passage.Machine.PrepareLink | internal/auxiliary/link.go:304-402 | held iff prepared and established; another role is refused untouched; the tails below the heads survive |
| Passage.Machine.WithdrawLink | internal/auxiliary/link.go:426-514 | refused while a peer or a bound is left; success leaves nothing; the key goes last |
| Passage.Machine.JoinLinkPeer | internal/auxiliary/link.go:536-642 | refusals read only; the bounds are loaded before the peer exists; success leaves exactly the junction's files and table |
| Passage.Machine.PartLinkPeer | internal/auxiliary/link.go:657-740 | held iff nothing is left to undo; another peer is refused untouched; the peer goes before its bounds |
| Passage.Machine.PoseLinkBounds | internal/auxiliary/linkrules.go:465-481 | at every instant the table has moved only behind the relaxation, the unit only behind the loaded table, the enablement only behind the unit; success is exactly the bounds of the role and port |
| Passage.Machine.RemoveLinkBounds | internal/auxiliary/linkrules.go:491-511 | takes away only what was found, and keeps every instant bounded once no peer is left |
| Passage.Machine.WriteRules | internal/auxiliary/system.go:926-932 | file, then kernel |
| Passage.Machine.RemoveRules | internal/auxiliary/system.go:944-954 | kernel, then file |
| Passage.Machine.ReloadNetworkConfiguration | internal/auxiliary/system.go:1053-1062 | an interface only ever comes from the description on disk, and only from a manager that runs |
| LinkTexts.RealTextsAreCoherent | internal/auxiliary/link.go:171-276 | what the passage flows ask of their texts is what the four renderers and two readers give |
| LinkTexts.PeerBelowHead | internal/auxiliary/link.go:240-249 | the first marker met in a description is exactly the boundary below its head |
| LinkTexts.RouteBelowHead | internal/auxiliary/link.go:240-249 | the same of the addressing |
| LinkTexts.RoleReadsBack | internal/auxiliary/link.go:260-276 | the role a file was built for is read back, with or without a route |
| LinkTexts.PeerSectionOpens | internal/auxiliary/link.go:196-204 | a peer section opens on its marker and names its own key |
| LinkTexts.OnlyItsOwnKey | internal/auxiliary/link.go:196-204 | a peer section names a key iff that key is its own, for every key and host on one line |
| LinkTexts.OnlyTheInitiatorRelaxes | internal/auxiliary/linkrules.go:305-331 | the boot unit loads the relaxation iff the role is the initiator's |
| LinkReadings.PreparedFilesSay | internal/auxiliary/link.go:171-230 | every section and setting the manager reads of a prepared machine: its interface, its address, no peer |
| LinkReadings.JoinedFilesSay | internal/auxiliary/link.go:171-238 | every section and setting of a joined one: beside those, exactly the peer the junction names, its one address, its endpoint on the side that goes out, and the one route to it |
| LinkVerdicts.ListenerVerdict | internal/auxiliary/linkrules.go:109-156 | of every packet at every hook, what a listener's table does: out by the passage only TCP to the initiator on the approved port, in only replies or UDP to the tunnel's port, nothing relayed, nothing else touched |
| LinkVerdicts.InitiatorVerdict | internal/auxiliary/linkrules.go:182-234 | of every packet at every hook, what an initiator's table does: in only TCP from the listener on the approved port, redirected to the same loopback port, out only replies, nothing relayed, nothing else touched |
| EgressVerdicts.EgressVerdict | internal/auxiliary/egress.go:112-160 | of every packet at every hook, what the confinement table does: new traffic of a confined account that leaves the machine is dropped, and nothing else is |
| EgressVerdicts.ConfinesWhatItRefuses | internal/auxiliary/egress.go:112-160 | the identifiers read off a table are exactly those whose new outward traffic it drops |
| LinkRules.ListenerPortReadsBack | internal/auxiliary/linkrules.go:109-156 | the approved port of a listener's table reads back, for every integer the reader holds |
| LinkRules.InitiatorNamesNoPort | internal/auxiliary/linkrules.go:182-234 | an initiator's table yields no port |
| LinkRules.ListenerTablesDiffer | internal/auxiliary/linkrules.go:109-156 | two listener tables are equal iff they bound one port |
| LinkRules.ReadApprovedPort | internal/auxiliary/linkrules.go:536-553 | the scan refines its specification |
| LinkRules.LinkRuleLines | internal/auxiliary/linkrules.go:561-579 | the filter keeps exactly the rules |
| EgressRules.RulesConfineExactly | internal/auxiliary/egress.go:112-196 | a loaded table refuses exactly the identifiers it was rendered for |
| EgressRules.EveryAccountIsNamed | internal/auxiliary/egress.go:163-196 | the file names every account it refuses in words, one or several |
| MachineTexts.RealTextsAreCoherent | internal/auxiliary/egress.go:112-196 | what the flows ask of their texts is what this product's printers and readers give |
| MachineTexts.ConfinableIsNameable | internal/auxiliary/egress.go:171-196 | every confinable account fits on one line of the table's preamble |
| MachineTexts.DeployedCanBeArchived | internal/auxiliary/snapshot.go:54-73 | a held deployment publishes a port an archive operation can read |
| MachineTexts.DesiredRunsItsImage | internal/auxiliary/unit.go:169-225 | the image a sheet of this product pins is the one its container runs |
| MachineTexts.PlansAreApprovable | internal/auxiliary/apply.go:1042-1056 | every request a decoded plan names meets what a run asks of it |
| Sheets.PublishedPortReadsBack | internal/auxiliary/snapshot.go:81-99 | the port of a rendered sheet reads back when description, image and name hold no line end |
| Sheets.ImageReadsBack | internal/auxiliary/unit.go:169-225 | the image of a rendered sheet reads back |
| SheetReadings.SheetReadsBack | internal/auxiliary/unit.go:169-225 | the mounts, the settings, the file of the secrets and the scratch read off a sheet are the placement's, each once and in order |
| SheetReadings.SettingsReadBack | internal/auxiliary/unit.go:64-101 | every setting comes out of the sheet as it went in |
| SheetReadings.MountReadsBack | internal/auxiliary/unit.go:169-225 | a mount is read as its two ends when neither holds the separator |
| SheetReadings.ControlsAreWritten | internal/auxiliary/unit.go:169-225 | the four controls are on every sheet |
| Sheets.BuildSheet | internal/auxiliary/unit.go:169-225 | the accumulating loops print exactly the sheet's lines |
| Sheets.ReadPublishedPort | internal/auxiliary/snapshot.go:81-99 | the scan refines its specification |
| Quoting.NothingIsLost | internal/auxiliary/unit.go:93-101 | unquoting gives back the exact line, for every line |
| Quoting.TheTwoFormsDoNotCollide | internal/auxiliary/unit.go:93-101 | quoted iff the line needs it; an unquoted form holds nothing the reader would split at or unescape |
| Quoting.NoLineIsAdded | internal/auxiliary/unit.go:93-101 | a line end comes out iff one went in |
| Quoting.LinesAreKeptApart | internal/auxiliary/unit.go:93-101 | two lines are never written alike |
| Quoting.EscapedInTwoPasses | internal/auxiliary/unit.go:93-101 | the chained replacements are one simultaneous escaping |
| Directories.DurableDirectoriesAreComplete | internal/auxiliary/profile.go:257-300 | nothing twice, the root first, each entry after its parent, and everything on the way to each volume |
| Directories.EveryVolumeIsNamed | internal/auxiliary/profile.go:283-300 | each volume on a canonical path is itself named |
| Directories.ListDurableDirectories | internal/auxiliary/profile.go:257-273 | the nested loops and their seen-set refine the specification |
| UserServices.UserDirectoriesAreComplete | internal/auxiliary/userservice.go:148-175 | what a definition's placement needs is named in full, parents first |
| UserServices.HomesAreApart | internal/auxiliary/userservice.go:73-115 | nothing under the home of one slug is under the home of another |
| UserServices.AccountsAreUsers | internal/auxiliary/userservice.go:73-75 | distinct slugs are distinct accounts of the third door |
| MachineTexts.AccountsFit | internal/auxiliary/userservice.go:73-75 | every derived account fits the thirty-two characters of an account name, and may need them all |
| Lines.AtoiOfDecimal | internal/auxiliary/snapshot.go:81-99 | a printed integer reads back, over the whole range of the reader |
| Lines.PastLines | internal/auxiliary/link.go:240-249 | a marker that is none of some lines is met only after them |
| Gaps.AddGap | internal/buffer/buffer.go:313-332 | the gaps come out sorted, disjoint, non-adjacent and counted, and cover exactly what they covered and the new one; above normal gaps it is the simple extension |
| Gaps.Merge | internal/buffer/buffer.go:318-331 | the merging sweep refines adding one range at a time |
| Gaps.NormalRangesAreApart | internal/buffer/buffer.go:313-332 | no sequence is in two gaps and no two gaps touch |
| Gaps.ExtendingStaysValidIff | internal/observation/observation.go:232-245 | exactly when a merged gap keeps an interval the wire contract accepts |
| Gaps.AClockSteppingBackReversesAnInterval | internal/buffer/buffer.go:325-329 | a merged gap that is refused |
| Delivery.Conservation | internal/buffer/buffer.go:270-332 | every sequence given out is in exactly one of pending, stored gaps, attached gaps, acknowledged |
| Delivery.DropOldest | internal/buffer/buffer.go:298-311 | what the record had said was lost is said again, then its own loss |
| Delivery.DroppingKeepsAccounts | internal/buffer/buffer.go:298-311 | an eviction keeps every account |
| Delivery.Enforce | internal/buffer/buffer.go:270-296 | evicts the shortest prefix after which it stops, and fails only where none does |
| Delivery.ApprovedIff | internal/buffer/buffer.go:485-494 | the limits a queue may be given |
| Buffers.ReadableIff | internal/buffer/buffer.go:442-483 | a written state validates again iff no interval it holds is reversed |
| Buffers.ValidatedIsOrdered | internal/buffer/buffer.go:442-483 | what a validation vouches for, of any state file |
| Buffers.OrderlyIsReadable | internal/buffer/buffer.go:442-483 | a queue whose clock never stepped back can always be read again, and each of its envelopes meets the wire contract |
| Buffers.OrderlyIsEncodableIff | internal/buffer/buffer.go:156-175 | its oldest record can be sent iff it fits in one message |
| Buffers.EnqueuingKeepsAccounts | internal/buffer/buffer.go:132-152 | an enqueued sequence is pending and nothing else moves |
| Buffers.AttachingKeepsAccounts | internal/buffer/buffer.go:162-169 | attached gaps leave the stored ones and lose nothing |
| Buffers.ConfirmingKeepsAccounts | internal/buffer/buffer.go:178-188 | an acknowledged record is confirmed with every loss it spoke of |
| DeliveryQueue.NothingIsLostOrTwice | internal/buffer/buffer.go:132-188 | conservation in every reachable state of the buffer, across failed writes, restarts and power cuts |
| DeliveryQueue.Buffer.Peek | internal/buffer/buffer.go:156-175 | one sequence is only ever handed out as one envelope, with all stored losses attached and none overwritten |
| DeliveryQueue.Buffer.Enqueue | internal/buffer/buffer.go:132-152 | on success the file holds the new state, within the count, the bytes and the age of its limits, and with any fewer evictions one of the three is passed; it fails to fit only where nothing does; a clock that does not step back keeps the queue readable |
| DeliveryQueue.Buffer.Acknowledge | internal/buffer/buffer.go:178-188 | only the exact oldest sequence leaves, and a mismatch touches nothing |
| DeliveryQueue.Buffer.Open | internal/buffer/buffer.go:90-125 | a fresh queue or the file's, evicted to the new limits and no further; never found invalid unless the clock stepped back |
| DeliveryQueue.Buffer.Crash | internal/buffer/buffer.go:343-382 | whatever a power cut brings back is a sound state that contradicts no envelope handed out |
| DeliveryQueue.Buffer.Commit | internal/buffer/buffer.go:335-341 | a state becomes visible only once it is the one file a power cut could bring back |
| DeliveryQueue.Buffer.SetDeliveryState | internal/buffer/buffer.go:198-211 | only a real transition is written, and it moves no observation |
| DeliveryQueue.KeptAfterHandingOut | internal/buffer/buffer.go:156-175 | handing out an envelope contradicts no file a restart could find |
| Base64.OneSpellingPerByteString | internal/approval/envelope.go:431-443 | exactly one text is accepted per byte string of the expected length (sections 3.5 and 5 of RFC 4648) |
| Base64.DecodeEncoded | internal/approval/envelope.go:431-443 | decoding undoes encoding, for every byte string |
| Base64.SpareBitsAreRefused | internal/approval/envelope.go:439-441 | a text the library decoder accepts and the spelling check refuses |
| Base64.LineBreaksAreRefused | internal/approval/envelope.go:439-441 | line breaks the library decoder passes over are refused |
| Transcripts.WrittenIsParsed | internal/approval/envelope.go:412-427 | any items written with length prefixes and fixed widths are read back from their shape alone |
| Transcripts.AppendItems | internal/approval/envelope.go:412-427 | growing the byte slice value by value gives exactly those bytes |
| Envelopes.SigningTranscript | internal/approval/envelope.go:343-378 | the bytes built are the transcript, and nothing is built of a malformed field |
| Envelopes.TranscriptIsParsed | internal/approval/envelope.go:343-378 | a parser recovers every field of a valid envelope |
| Envelopes.TranscriptIsInjective | internal/approval/envelope.go:343-378 | two valid envelopes with one transcript are one envelope |
| Envelopes.LowerHexIsTheOnlySpelling | internal/approval/envelope.go:275-280 | a lower-case digest is the only accepted text of its bytes |
| Envelopes.ValidatePrivileges | internal/approval/envelope.go:298-320 | accepted iff the operation is known and the list is exactly its own |
| Envelopes.ValidIff | internal/approval/envelope.go:256-320 | schema, epoch, sequence, lifetime and privileges a valid envelope is held to |
| Envelopes.ExactlyOneSubject | internal/approval/accept.go:52-73 | every valid envelope reaches one of the two subjects and never both |
| Replay.NoPositionIsAcceptedTwice | internal/approval/replay.go:63-85 | over every interleaving and every crash, accepted positions strictly increase, none twice, each of a checked approval |
| Replay.AcceptedIffNextInLine | internal/approval/replay.go:63-128 | in every reachable state with the lock free, an Auxiliary whose checks passed and that nothing stops is accepted exactly when the file is absent and the sequence 1, or the file names its machine and the position is the next of the epoch or the first of a later one; otherwise nothing moved |
| Replay.TheFirstIsAccepted | internal/approval/replay.go:89-104 | a machine that never accepted anything accepts the first sequence of any epoch |
| Replay.AdmissibleIff | internal/approval/accept.go:75-123 | exactly what reaches the lock: bound to this machine and epoch, of the subject asked, in its window, signed over its transcript under the anchored key |
| Replay.AcceptedWasAdmissible | internal/approval/accept.go:75-123 | in every run, all of that is so of everything accepted |
| Replay.NothingAcceptedIsForgotten | internal/approval/replay.go:167-200 | no power cut brings back a position before one that was accepted, nor a torn file |
| Replay.SpentWithoutAHole | internal/approval/replay.go:89-128 | every sequence of an epoch up to the position held was spent before |
| Replay.NextKeeps | internal/approval/replay.go:63-255 | every step of lock, read, decision, temporary file, synchronisation, rename, directory and failure keeps the invariant |
| Replay.AcceptingKeeps | internal/approval/replay.go:167-200 | an acceptance is returned only once its position is the only one that could come back |
| Replay.RenamingKeeps | internal/approval/replay.go:167-200 | the rename publishes the successor of the position the lock protected |
| Replay.SuccessorComesAfter | internal/approval/replay.go:89-128 | a successor is strictly later and leaves no hole |
| Replay.TheCounterDoesNotWrap | internal/approval/replay.go:120-127 | the last sequence of an epoch has no successor, by the wrapping addition itself |
| Replay.AcceptIsStrict | internal/approval/accept.go:75-123 | the checks of accept meet what the protocol needs of them |
| Dispatch.BoundDispatchRecords | internal/controller/dispatch_registry.go:415-434 | the sweep from the newest end refines trimming, reversing and the stable sort |
| Dispatch.BoundedKeeps | internal/controller/dispatch_registry.go:415-434 | sorted by acceptance, min(32, n) ended records per machine, every open record, nothing altered and nothing invented |
| Dispatch.KeptAreTheLatest | internal/controller/dispatch_registry.go:415-434 | one trimming: a record that leaves is no later than any of the thirty-two ended ones of its machine that stay |
| Dispatch.BoundingDropsTheOldest | internal/controller/dispatch_registry.go:415-434 | what a bounding drops was accepted no later than anything ended it keeps of that machine |
| Dispatch.StillSpentIff | internal/controller/dispatch_registry.go:281-290 | exactly which digests a bounded history still knows |
| Dispatch.AForgottenDigest | internal/controller/dispatch_registry.go:281-290 | thirty-three ended launches of one machine, the first of which is no longer known |
| Registry.Store.Accept | internal/controller/dispatch_registry.go:345-355 | refused iff the record is ended, invalid, or its digest open already; durable before it is visible; only the new record opens, nothing ended is altered, the bound holds, only the oldest ended records of a machine leave, and which digests stay known is exact |
| Registry.Store.Conclude | internal/controller/dispatch_registry.go:366-399 | refused of a digest that is absent or ended, never of an open record and a conclusion it may carry; concludes the first record of the digest and touches no other; what leaves is the oldest ended, and which digests stay known is exact |
| Registry.Store.AlreadySpent | internal/controller/dispatch_registry.go:281-290 | true iff some record held now names the bytes, whatever its state |
| Registry.Store.Open | internal/controller/dispatch_registry.go:198-248 | every record in flight becomes one launched and unreported, and no other moves |
| LaunchRuns.Run | internal/controller/dispatch_registry.go:345-399 | every run from an empty history, whatever writes fail: an accepted launch is held open until something is answered to have ended it, an ended record is held only as it ended, and each acceptance and conclusion leaves every machine within its bound |
| LaunchRuns.AcceptedStaysOpen | internal/controller/dispatch_registry.go:235-246 | a launch accepted, with no conclusion of its digest and no start since, is open |
| Registry.Requalifying | internal/controller/dispatch_registry.go:235-246 | opening keeps every record in place and trims none |
| Registry.RecordValidIff | internal/controller/dispatch_registry.go:447-500 | what one record may hold |
| Pairing.Manager.ActivateThenCrash | internal/controller/identity_flow.go:335-368 | after an activation that stopped anywhere and a start: no conflict is ever found, and it is the old identity with the same candidate, or the new one with its receipt and no candidate |
| Pairing.Manager.AskThroughCrashes | internal/controller/identity_flow.go:335-368 | the same request sent any number of times through any number of crashes: no start finds a conflict, every answer names the one next revision, the identity has moved by that one activation at most, and once it has moved and a process runs, the request is answered each time it is sent within a day of every time before |
| Pairing.Manager.Activate | internal/controller/identity_flow.go:335-368 | the identity changes only into the candidate that was asked for with its own certificate, in its time; once no candidate is left it answers iff a receipt of this very request of the last day is held |
| Pairing.Manager.AskTwice | internal/controller/identity_flow.go:335-368 | the request an activation answered, sent again within a day, is answered with the same revision |
| Pairing.Manager.Open | internal/controller/candidate.go:34-58 | a committed candidate is finished, another is kept, and a conflict can only come from a candidate prepared behind the file |
| Pairing.Manager.Prepare | internal/controller/identity_flow.go:370-417 | a candidate replaces what this process knows to be active; while one is pending, the rotation that prepared it is answered with it and anything else is refused, and nothing is written |
| Pairing.Manager.PruneCandidate | internal/controller/identity_flow.go:445-454 | only an expired candidate is withdrawn |
| Pairing.Manager.AnswerFromReceipt | internal/controller/identity_flow.go:344-354 | answers iff a recent receipt of the request exists and the active device presents itself |
| Identities.ActivationCommits | internal/controller/identity_flow.go:594-645 | one write revokes the former device, installs the new one, moves the revision by one and leaves the receipt of this request, this revision and this time |
| Identities.PreparedIsLoadableIff | internal/controller/candidate.go:106-161 | beside which authority a candidate can be loaded, exactly |
| Identities.CommittedIsLoadableIff | internal/controller/candidate.go:106-161 | a candidate that carries its outcome is loadable exactly beside its own device or the one it replaces |
| Identities.MayActivateIff | internal/controller/identity_flow.go:594-645 | exactly which candidates may become the identity of a well-kept authority |
| Identities.TheReplacedIdentityCannotPrepare | internal/controller/candidate.go:106-161 | a candidate prepared for a replaced identity is refused at the next start |
| Identities.RecentKeepsExactly | internal/controller/identity_flow.go:618-626 | exactly the receipts of the last day stay, each as often as it was there |
| Identities.RecentOfBoth | internal/controller/identity_flow.go:618-626 | and they stay in their order |
| Identities.KeepRecent | internal/controller/identity_flow.go:618-626 | the filtering loop refines what these two characterise |
| Inventory.ExternalSearch | internal/controller/external.go:465-469 | the halving returns the place of the key: all smaller before it, none from it on |
| Inventory.FoundAtItsPlace | internal/controller/external.go:216-221 | a key is in the inventory iff it is at that place |
| Inventory.Store.Declare | internal/controller/external.go:196-248 | refused iff the port, the machine, the key, the identifier or the room is not there; one more element at its own place; order and uniqueness kept; revision one further |
| Inventory.Store.Withdraw | internal/controller/external.go:253-275 | refused iff no element carries the identifier or the revision is at its end; exactly that declaration leaves |
| Inventory.Store.RecordObservation | internal/controller/external.go:287-327 | refused iff no element carries the identifier with no later reading, or the revision is at its end; one element's reading moves |
| Inventory.Store.AbsorbSnapshot | internal/controller/external_readings.go:55-104 | the elements become what the snapshot says of each; the revision moves by one iff some element did; nothing is written otherwise |
| Inventory.Store.AbsorbTwice | internal/controller/external_readings.go:55-104 | the second absorption changes nothing |
| Inventory.AbsorbingIsIdempotent | internal/controller/external_readings.go:113-180 | a conclusion drawn twice from one snapshot is the same |
| Inventory.NoSequenceOfSnapshotsRegresses | internal/controller/external_readings.go:75-95 | no sequence of snapshots reads an element further back in time |
| Inventory.ReadingsSay | internal/controller/external_readings.go:113-180 | which answer gives which reading, and when it was read |
| Inventory.UnobservedSays | internal/controller/external_readings.go:113-141 | what is said of an element whose machine was not observed |
| Inventory.ContradictedWasVerified | internal/controller/external_readings.go:157-172 | in every sequence of snapshots, an element is contradicted only after its port was found answering |
| Inventory.ContradictionStandsIff | internal/controller/external_readings.go:157-172 | through one snapshot a contradiction stands iff the machine was observed and nothing else was said of the port |
| Inventory.AContradictionIsForgotten | internal/controller/external_readings.go:157-172 | two snapshots after which it is forgotten without the port having been verified |
| Inventory.WithdrawingUndoesDeclaring | internal/controller/external.go:196-275 | withdrawing what was declared restores the inventory |

## Left out

- The unconfined doors: `deploy`, `remove`, the entrypoint and the routes share the order of effects of the confined ones and pose no confinement.
- Real effects: processes, podman, systemd, nft, tar, sockets, HTTP probes, TLS and file modes appear only as effects that may fail.
- Reports, applications, observations after a failed rollback and error texts: they are read-only and decide nothing.
- Decoded plans and definitions are inputs, with their origin already interpolated; that a plan and its rollback name one subject is assumed as decoded.
- Signatures, hashes, certificates and random values are uninterpreted functions, tokens and fresh choices.
- Reboots inside an Auxiliary operation and two operations at once on one machine; the anti-replay protocol alone is interleaved.
- Two state directories of one Controller, and a local revocation beside a running activation.
- The comments inside generated files are parameters: lines that open on `#`.
- Text is sequences of characters, and trimming knows the spaces of ASCII and Latin-1; sequences and revisions of the queue are unbounded where the code has 64 bits and refuses or never reaches saturation.
- Exchange.Storage.ExchangeServiceData: a process that dies is modelled as a step that fails; the order in which a power cut loses several renames is not.
- Registry.Store.Open: power cuts that bring back an older history are modelled for the approval, the queue and the identity, not for the history and the inventory, whose failed writes may only leave the newer file.
- Pairing.Manager.Prepare: the window, the challenge and the proofs before the end of `Complete` are not modelled; that end withdraws an expired candidate as the opening of its window does.
- Pairing.Manager.Activate: the order of the revoked list is not modelled, it is a set.
- Inventory.Store.Declare: the spelling of labels, identifiers and instants is taken as already checked.
- Archives.ExchangeServiceData: on the machine's own trace a return is one instant; the instants inside it are those of `Exchange.Storage`, each of them proved to hold both trees.
- Apply.Run: a machine is entered in a state safe runs leave; a sheet, a table or an interface an administrator made by hand is not.
