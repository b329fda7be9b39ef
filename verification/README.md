# Kubernetes CPI: the VM and disk lifecycle, verified

A BOSH CPI answers each request with a fixed sequence of Kubernetes API calls on a cluster that it shares with
everybody else. This project models those sequences and proves what they keep true. At the centre is the protocol
behind `AttachDisk` and `DetachDisk`, which rebuilds a running pod and holds the set of attached disks in three places
at once: the settings in a config map, the pod's volume list, and the mounts of its `bosh-job` container.

Check everything with `dafny verify dfyconfig.toml`.

## How the model is built

| Module | Subject |
|---|---|
| `Basics`, `Names` | results and errors; object names and cloud IDs |
| `Settings` | the agent settings, their JSON tree, encoder and decoder under the struct tags |
| `PodSpecs`, `PodEditing` | the volume and mount edits: as functions on sequences, and as in-place loops over slices with backing arrays, proved against them |
| `Selectors`, `PrintedSelectors` | label selectors as text: validators, lexer, parser and matching; what the text `key=id` selects; the parse of what was printed |
| `Cluster` | the objects, each API call as one atomic step, the `Api` class that the programs call |
| `WaitLoop` | the three watch loops as one machine with three readiness tests, and what each wait is for |
| `Recreate` | attach and detach as a program-counter machine; many agents interleaved; crash states |
| `Attachments`, `Agreement` | an independent account of a history of runs, the proof that every schedule keeps to it, and what follows |
| `Recovery` | one run and agreement on the stored objects: retries, the exact condition for each outcome, the second attach |
| `Carried` | labels, annotations and the pinned IP over every schedule, and exactly when a patched label stays |
| `VolumeManager` | the attach and detach program, proved equal to a run of the machine |
| `Requests`, `Plans`, `CreateVM`, `DeleteVM`, `Lifecycle` | what a request asks for; creation as carrying out an ordered plan, deletion as a purge, and the two together |
| `Disks`, `Metadata`, `Lookups` | disks, label setters, GetDisks over whole runs, and lookups by label against lookups by name |
| `Reachability` | all operations call by call in any interleaving, and the label index and GetDisks in every cluster they reach |
| `Cases` | concrete inputs on which the code does not do what one might expect |

The attach and detach protocol is modelled twice. `Recreate.Step` makes one API call and moves a program counter;
`Recreate.Act` interleaves such steps of any number of agents with arriving requests, with status reports from the
kubelet and with labels being patched onto pods. `VolumeManager.Manager.RecreatePod` is the program itself, with the
in-place slice code, and is proved to have the same final objects, success and number of calls as a run of the machine
alone (`Recreate.Alone`), whichever calls are refused. `Recreate.AloneIsASchedule` makes that run a schedule of the
interleaved system.

The results over whole histories go through an account: a log with one entry a run, saying how far the run got.
`RecordAfter`, `AttachedAfter` and `PinAfter` read from the log alone what the config map, the pod and the IP
annotation should hold. `Attachments.EveryRunKeepsTrack` shows that under every schedule some log with one entry a
report describes the stored objects, and `Attachments.EveryMomentStands` that this is so in mid-run as well. The later
theorems argue about logs and return to the stored objects: where an account stands for the objects, the account agrees
exactly when the objects do (`Agreement.AgreementInObjects`).

HasVM, HasDisk and Delete look objects up by a selector that the program writes as text. `Selectors` holds the client
library's parser for such texts, so that what a lookup finds is proved for every identifier, whatever characters it
has. For identifiers that are valid label values it is equality of labels, and for no others
(`Selectors.SelectsByEqualityExactly`); results that rest on this say so in a `requires IsLabelValue(id)`.

Each operation says what it does twice. One contract uses the functions that the larger results argue about: runs,
plans, purges, merges. The other uses none of them, and nothing that the program shares with its specification but the
decoder of stored settings and the validator of label values: only the names, labels, keys, paths and phases that the
program writes, the identifiers a cloud ID names (`Names.Through`) and the namespace configured for its context
(`Provider.Resolves`). These are `Rebuilds` for attach and detach, `Makes` for Create, `Deletes`, `Provides` and
`Reports` for Delete, CreateDisk and GetDisks, and `SetsAll` and `SetsValid` for the metadata setters; `BecomesBound`,
`ComesUp` and `RollsOut` say on the trace what a wait is for.

`Reachability.Go` takes the calls of all operations one at a time. A metadata setter in flight keeps what it has read,
which may be old by the time it writes; a creation may take any step of its plan at any time and a deletion may delete
anything, which allows more than the programs do. The `...IsMoves` lemmas tie each program's contract to such calls.

## What the model takes as given

* A call the server refuses has no effect, and an answered call is one atomic step. Which calls are refused is an
  arbitrary function of the call number, or an arbitrary flag at each step of a schedule.
* `Get` returns a copy. An absent label or annotation map is read back as an empty one.
* The server reads the selector that the client prints as the one that was parsed; without sets this is
  `PrintedParses`. A selector that does not parse counts as a refused watch: neither reaches the objects.
* At most one attach or detach run is in flight for one agent; any number for different agents.
* A watch is a trace of events with a timer firing among them. `Decided` says that something in it decides the wait,
  which the timer guarantees.
* The validators and the lower-casing of the metadata setters, the quantity parser and the readable files are
  parameters; every result holds for all of them. Generated identifiers are inputs.
* Contexts have no colon only where a result says so.

## What the code does that a reader might not expect

* `addVolume` appends whether or not the disk is there. A second attach of one disk leaves it in the pod twice and in
  the config map once (`SecondAttachRepeats`, and `SmallSecondAttach` for one concrete cluster). A run that rebuilds the
  pod keeps agreement exactly when it does not attach a disk whose volume the pod has (`RunKeepsAgreementExactly`). A
  run whose wait timed out has already rebuilt the pod, so retrying such an attach is a second attach: retries end in
  agreement exactly when no try before the last one came that far (`RetryRecoversObjects`).
* A run that loses its create call leaves a config map without a pod. No later attach or detach can repair that
  (`LostPodStaysLost`).
* `GetDisks` prints the context it was given, and the config map the resolved one. Asked through the empty context it
  disagrees with the config map as soon as a disk is attached (`GetDisksMatchesRecord`, `SmallEmptyContext`).
* `SetVMMetadata` depends on map iteration order exactly when two valid entries lower-case to one key with different
  values (`OrderMattersExactly`, `OrderOfTwoEntries`). Either setter overwrites the label that identifies its object
  exactly when an entry gives that label another value, and for a disk no entry is invalid (`LabelVMKeepsIndex`,
  `LabelDiskKeepsIndex`); the entry `agent-id` or `disk-id` is enough to make HasVM or HasDisk miss an object that is
  there (`AgentIdHidesVM`, `DiskIdHidesDisk`).
* A label patched onto a pod stays exactly when no attach or detach in flight holds a copy of the pod without it that
  it can still create (`LabelStaysExactly`). A patch that arrives after a run's first, second or third call is gone once
  the run has gone through (`LabelsSetMidRunAreLost`, `SmallLostLabel`).
* A value with colons, such as a time, is no label value. `SetVMMetadata` passes the entry over in silence
  (`CreatedAtIsPassedOver`); `SetDiskMetadata` fails on it, except for `attached_at`, whose colons it replaces
  (`AttachedAtIsSet`).
* An identifier that is no label value is not looked up as it stands. What its selector finds, if it parses, belongs
  to some other identifier (`InvalidReachesOthers`): named as `=foo`, HasVM answers for the VM `foo` and Delete takes
  the services of `foo` (`SignReachesOthers`, `OthersAreSafeExactly`). Commas in it add requirements (`CommasAddTerms`),
  and blanks around it are dropped (`BlanksAreSkipped`).
* `Delete` leaves the namespace, ingresses, secrets and a deployment behind, and the services too if no selector can
  name their label (`ResidueIsExact`). It finds services by selector, so it also takes services that were labelled for
  the agent before (`NothingLostExactly`).
* `createDeployment` computes the IP annotation and does not use it, so the pod template has no annotations.

## Model

| member | source | states |
|---|---|---|
| Names.NamesInjective | actions/volume_manager.go:175-190 | `agent-`, `disk-`, `/mnt/` and label-prefix names determine the identifier they were built from |
| Names.ParseOfPrint | actions/util.go:10-26 | parsing a printed pair returns it if and only if the context has no colon, whatever the identifier holds |
| Names.PrintOfParse | actions/util.go:10-26 | parsing succeeds exactly on texts with a colon, and printing what was parsed gives the text back |
| Names.ThroughIsParse | actions/util.go:10-26 | parsing a cloud ID yields a context and an identifier if and only if it is the context, which has no colon, a colon, and the identifier |
| Names.CidInjective | actions/util.go:10-26 | cloud IDs with colon-free contexts are equal only when both parts are |
| Selectors.SelectsByEqualityExactly | vendor/k8s.io/client-go/pkg/labels/selector.go:405-785 | the parsed text `key=id` matches exactly the label maps with that value if and only if the identifier is a valid label value |
| Selectors.InvalidReachesOthers | vendor/k8s.io/client-go/pkg/labels/selector.go:571-720 | for any other identifier the text does not parse, or whatever it matches is labelled with another, valid value |
| Selectors.SignIsSwallowed | vendor/k8s.io/client-go/pkg/labels/selector.go:428-455 | an identifier behind an extra equality sign selects what the identifier alone selects |
| Selectors.ValidParses | vendor/k8s.io/client-go/pkg/labels/selector.go:538-616 | for a valid label value the text parses to the one requirement that the key equals it |
| Selectors.OwnKeys | vendor/k8s.io/client-go/pkg/util/validation/validation.go:38-71 | a key with the program's prefix is a qualified name exactly when the rest is a name of at most 63 characters |
| Selectors.QualifiedNameMeans | vendor/k8s.io/client-go/pkg/util/validation/validation.go:38-71 | a qualified name is a name of at most 63 characters, alone or behind one slash and a subdomain |
| PrintedSelectors.PrintedParses | vendor/k8s.io/client-go/pkg/labels/selector.go:243-321 | any list of requirements without sets, printed with commas between them, parses to those requirements |
| PrintedSelectors.CommasAddTerms | vendor/k8s.io/client-go/pkg/labels/selector.go:172-321 | an identifier of a label value and further terms behind commas selects exactly what has that value and meets every term |
| PrintedSelectors.BlanksAreSkipped | vendor/k8s.io/client-go/pkg/labels/selector.go:405-497 | a label value with blanks before and behind it selects what it selects without them |
| Cases.LettersAreValid | vendor/k8s.io/client-go/pkg/util/validation/validation.go:38-92 | a text of lower-case letters is a label value exactly up to 63 of them, and a qualified name exactly from 1 to 63 |
| Settings.RoundTrip | agent/settings.go:3-36 | decode after encode is the identity up to nil versus empty for omitted collections |
| Settings.SettingsAreTagged | agent/settings.go:3-36 | the encoder writes every field under its tag, leaves out exactly what the tags say to leave out, and writes nothing else |
| Settings.DecoderForgives | agent/settings.go:3-36 | unknown keys are passed over and a null field counts as absent, in every document |
| Settings.BareDocuments | agent/settings.go:3-36 | absent fields decode to zero values; text that is no document, and documents that are neither an object nor null, are errors |
| Settings.EditSurvives | actions/volume_manager.go:133-156 | after the disk map is edited and stored, the next decode reads exactly that map and every other field as before |
| PodSpecs.DetachUndoesAttach | actions/volume_manager.go:175-214 | detaching a disk just attached restores the volumes and the mounts of every container, when the disk was absent |
| PodSpecs.AttachDetachCommute | actions/volume_manager.go:175-214 | attaching one disk and detaching a different one commute on every spec |
| PodSpecs.DetachesCommute | actions/volume_manager.go:196-214 | detaches commute on every spec, present or not |
| PodSpecs.AttachesCommuteUpToOrder | actions/volume_manager.go:175-194 | two attaches commute up to list order, and exactly only when they are of one disk |
| PodSpecs.AttachNormalForm | actions/volume_manager.go:175-194 | attaching to a base with a list of disks gives the base with the disk at the end of the list |
| PodSpecs.DetachNormalForm | actions/volume_manager.go:196-214 | detaching from a base with a list of disks gives the base with the disk's first entry gone |
| PodEditing.SpecBuffer.AddVolume | actions/volume_manager.go:175-194 | the append to the volume slice, and the container loop with its break and its append, yield the attached spec: one volume `disk-D` on the claim `disk-D`, one mount `disk-D` at `/mnt/D` in the first `bosh-job` container, and no other change |
| PodEditing.Slice.RemoveAt | actions/volume_manager.go:196-214 | shifting the tail down in the backing array removes exactly the one entry, in the same array |
| PodEditing.RemoveFirst | actions/volume_manager.go:196-202 | the loop that splices out the first entry of a name and breaks is the list without that entry |
| PodEditing.SpecBuffer.RemoveVolume | actions/volume_manager.go:196-214 | the in-place splices, over slices with backing arrays of their own, yield the detached spec: the first volume `disk-D` gone, the first mount `disk-D` of each `bosh-job` container gone, and no other change |
| PodEditing.SpecBuffer.RemoveMounts | actions/volume_manager.go:204-213 | every `bosh-job` container, and no other, loses its first mount of the name; no backing array is replaced |
| WaitLoop.Wait | actions/create_disk.go:130-160 | success exactly when the first decisive item modifies an object of the right type to a ready one; the other outcomes name that item; waiting goes on only while no item decides |
| WaitLoop.WaitForRunning | actions/volume_manager.go:237-258 | the loop over pod events, with its own readiness test, ends as the generic one does |
| WaitLoop.IsAgentContainerRunning | actions/volume_manager.go:261-272 | true exactly when the phase is `Running` and the first status named `bosh-job` is ready and running |
| WaitLoop.BoundIsSuccess | actions/create_disk.go:130-160 | a claim wait succeeds exactly when some event modifies a claim in phase `Bound` and all before it modify claims in other phases |
| WaitLoop.UpIsSuccess | actions/volume_manager.go:237-272 | a pod wait succeeds exactly when some event modifies a pod that is up and all before it modify pods that are not |
| WaitLoop.RolledOutIsSuccess | actions/create_vm.go:562-613 | a deployment wait succeeds exactly when some event modifies a deployment observed as it is with its replicas available, and all before it one that is not |
| Cluster.Api.List | actions/delete_vm.go:62-65 | a served list holds exactly the objects that the selector matches, each once, in some order |
| Cluster.SelectingIsLabelled | actions/has_vm.go:23-34 | for a valid label value the selectors of the program find exactly the objects that carry it |
| Recreate.NonInterference | actions/volume_manager.go:76-164 | under every interleaving and every refusal, an agent's pod, config map and reports are those of its own actions alone |
| Recreate.OnlyOwnObjects | actions/volume_manager.go:76-164 | no schedule touches an object other than the pods and config maps of its agents |
| Recreate.CrashStates | actions/volume_manager.go:76-124 | every run ends in (old, old), (new, old), (new, absent) or (new, new), decided by its first refused call, and succeeds only in the last; without a pod or readable settings it fails and changes nothing |
| Recreate.CalmRun | actions/volume_manager.go:76-124 | a run with a pod and readable settings, none of whose own calls is refused, succeeds exactly when the wait does |
| Recreate.AloneIsASchedule | actions/volume_manager.go:76-124 | a run alone is a schedule of the interleaved system with the same store and report |
| VolumeManager.Manager.AttachDisk | actions/volume_manager.go:36-54 | malformed IDs panic; IDs of differing or unknown contexts are rejected without a call; otherwise the request is one run of the protocol in the namespace of the context: it touches the pod and config map of that VM only, on success the settings gain `C:D` at `/mnt/D` for the resolved context C, the pod is up again with one volume and one mount of `disk-D` more, labels kept and the IP pinned, and it succeeds when both can be read, no call is refused and the pod comes up |
| VolumeManager.Manager.DetachDisk | actions/volume_manager.go:56-74 | the same, with `C:D` out of the settings and the first volume and mounts of `disk-D` gone |
| VolumeManager.Manager.RecreatePod | actions/volume_manager.go:76-124 | the program and the step machine have the same final objects, success and number of calls, whatever is refused |
| VolumeManager.Manager.EditPod | actions/volume_manager.go:88-104 | the spec is edited, labels and annotations kept, an empty IP annotation filled in, the status cleared |
| VolumeManager.Manager.UpdateConfigMapDisks | actions/volume_manager.go:126-164 | reading, editing and updating the config map is the corresponding part of the run |
| VolumeManager.Manager.WaitForPod | actions/volume_manager.go:216-259 | success exactly when the watch opens and its trace shows the pod up |
| Attachments.SuccessorIsNext | actions/volume_manager.go:88-104 | the pod about to be created is the one that the account, extended by this run, calls for |
| Attachments.EveryRunKeepsTrack | actions/volume_manager.go:76-164 | over every schedule the stored objects are those of an account with one entry a report |
| Attachments.EveryMomentStands | actions/volume_manager.go:76-164 | at every moment of every schedule, in mid-run too, some account stands for the stored objects |
| Agreement.AgreementInObjects | actions/volume_manager.go:139-214 | where an account stands for the objects, the three stored places agree if and only if the account does: each recorded disk at `/mnt/D`, with one volume on the claim `disk-D` and one mount at the recorded path, and no volume or mount of any other disk |
| Recovery.RunKeepsAgreementExactly | actions/volume_manager.go:76-124 | from agreement in the store, by the stage a run reached: kept if nothing was written; with the config map written and the pod not deleted, kept exactly when there was nothing to edit; no pod after the delete; after the rebuild, kept exactly when the run did not attach a disk whose volume the pod had |
| Recovery.SecondAttachRepeats | actions/volume_manager.go:175-194 | in any such cluster, two successful attaches of one disk: agreement after the first, none after the second, and the volume twice in the stored pod |
| Cases.SmallSecondAttach | actions/volume_manager.go:175-194 | the same for one concrete cluster |
| Recovery.RetryRecoversObjects | actions/volume_manager.go:76-124 | from agreement in the store, after any number of runs that did not lose the pod, a run with every call served and a successful wait succeeds; it ends in agreement if and only if it does not attach a disk that the pod had at the start or that an earlier run had already rebuilt the pod with, and then the pod is as one success would have made it |
| Agreement.ThreeWayAgreement | actions/volume_manager.go:126-214 | after any schedule in which this agent's requests succeeded and attached only unattached disks, `C:D` is in the config map, at `/mnt/D`, exactly when the pod has one volume and the job one mount named `disk-D`; that volume is on the claim `disk-D` and that mount at the recorded path |
| Agreement.SettingsSurvive | actions/volume_manager.go:133-156 | at every moment of every schedule, all settings but the disk map are those of the start |
| Agreement.LostPodStaysLost | actions/volume_manager.go:76-81 | once the pod is gone, every later attach and detach fails at its first call and nothing changes again |
| Carried.PinOfSuccessor | actions/volume_manager.go:90-104 | a recreate keeps a non-empty IP pin, else takes the pod's IP; labels and other annotations stay |
| Recovery.ReportedAddressIsPinned | actions/volume_manager.go:90-104 | an IP that the kubelet reports for an unpinned pod is what the next run that goes through pins |
| Carried.FirstAddressIsForGood | actions/volume_manager.go:90-104 | once a run that read an unpinned pod with an IP has made its successor, whatever happened in between, every copy is pinned to that IP at every later moment |
| Carried.CarriedForever | actions/volume_manager.go:90-104 | whatever holds of labels and annotations, and survives pinning and the patches in the schedule, holds of every copy, stored or in flight, at every later moment |
| Carried.PinnedForever | actions/volume_manager.go:90-104 | a non-empty pin and the other annotations survive every schedule, labels being patched or not |
| Carried.LabelsForever | actions/volume_manager.go:98-103 | labels survive every schedule without patches of them |
| Carried.LabelForever | actions/volume_manager.go:98-103 | a label keeps its value in every copy when no patch gives it another |
| Carried.LabelStaysExactly | actions/volume_manager.go:98-119 | a label patched onto the pod is on it at every later moment of every schedule without further patches, if and only if no run in flight holds a copy without it that it can still create |
| Carried.LabelStaysUnlessCopied | actions/volume_manager.go:98-119 | for a VM with an account: if and only if no run in flight holds a copy without it |
| Carried.LabelsSetMidRunAreLost | actions/volume_manager.go:76-119 | a label patched onto the pod after the first, second or third call of a run is there then, and gone when the run has created the pod |
| Cases.SmallLostLabel | actions/volume_manager.go:76-119 | the same for one concrete cluster and schedule |
| Plans.BuiltIsMerge | actions/create_vm.go:268-349 | carrying out a plan is a left-biased merge: existing objects stay, a new one is its first mention |
| Plans.FeasibleMeans | actions/create_vm.go:119-184 | a plan can be carried out if and only if each step can be built and each strict one names what neither the cluster nor an earlier step has |
| CreateVM.StepIsWanted | actions/create_vm.go:136-177 | each step of the plan makes the object that the request asks for at its place, field by field, and only the namespace and the services may be there before |
| CreateVM.ClearIsFeasible | actions/create_vm.go:119-184 | the plan can be carried out if and only if the names of config map and workload are free, listed ingresses and secrets absent and distinct, files readable, resources parsing and replicas at least one |
| CreateVM.Creator.Create | actions/create_vm.go:119-184 | one network and a known context are required, else nothing is called; what was there stays; what is there besides is a first part of namespace, config map, services, secrets, workload in this order, each as the request describes it, all of it on success; with nothing refused, and a deployment rolling out, it succeeds if and only if nothing stood in the way, whatever namespaces and services were there; the result is the resolved context, a colon and the agent's identifier |
| CreateVM.Creator.CreateBasics | actions/create_vm.go:227-266 | the namespace is created unless it is there, then the config map, which must be new and holds the settings of the request; with nothing refused it fails only for a config map that is there |
| CreateVM.Creator.CreateServices | actions/create_vm.go:268-349 | in list order, each ingress created and each other service got or created |
| CreateVM.Creator.BuildService | actions/create_vm.go:270-336 | type, ports, cluster and external addresses, load-balancer address and selector of a service, each from its field of the definition |
| CreateVM.Creator.CreateSecrets | actions/create_vm.go:351-404 | in list order, each secret new, with its type and its payload |
| CreateVM.Creator.BuildPayload | actions/create_vm.go:370-379 | in any iteration order, the data is copied and `.dockercfg` replaced by the file it names, or the secret fails |
| CreateVM.Creator.CreateWorkload | actions/create_vm.go:406-560 | the pod, or the deployment and its wait, with resources checked first; a failed wait leaves the deployment |
| CreateVM.Creator.BuildResources | actions/create_vm.go:627-658 | in any iteration order, succeeds exactly when every entry is cpu or memory and parses |
| Lifecycle.CreateOnlyAdds | actions/create_vm.go:119-184 | whatever fails, nothing existing is changed or removed, and the additions are the objects of a prefix of the plan |
| Lifecycle.ServicesMergeLeftBiased | actions/create_vm.go:268-349 | after success an existing service keeps everything, owner label included; an absent listed name has its first non-ingress definition; there are no others |
| Lifecycle.StrictStepIsNew | actions/create_vm.go:302-314 | after success every ingress, secret, config map and pod of the plan is new, under a name no earlier step used |
| Lifecycle.PurgeOfBuilt | actions/delete_vm.go:20-44 | deleting after any plan is carrying out the plan's kept steps after deleting, for every cluster |
| Lifecycle.ResidueIsExact | actions/delete_vm.go:20-85 | Create then Delete leaves the cluster without what Delete was after, plus exactly the namespace, the listed secrets and ingresses, with replicas the deployment, and for an identifier that is no label value the listed services |
| Lifecycle.NothingLostExactly | actions/delete_vm.go:56-75 | nothing of the original cluster is lost if and only if the agent's selector found no service and, with replicas, no pod had its name |
| Lifecycle.CleanupAfterFailure | actions/create_vm.go:119-184 | deleting after a failed Create leaves, of what was there and of what a prefix of the plan added, exactly what Delete is not after; for a valid label value that is what the kept steps of the prefix make |
| Lifecycle.CreatedVMIsTracked | actions/create_vm.go:406-472 | a pod-backed VM just created has the objects of an empty account |
| Lifecycle.CreatedVMStaysInAgreement | actions/create_vm.go:442-469 | from creation on, over any schedule of proper requests, volumes are `bosh-config`, `bosh-ephemeral`, then the disks in order of latest attach, the job's mounts likewise with each disk D at `/mnt/D`, and all three places agree |
| DeleteVM.Deleter.Delete | actions/delete_vm.go:20-44 | a context that is not configured is rejected without a call; otherwise only the agent's pod, config map and services in the namespace of the context go, all of them on success, on failure some, the pod first and the config map last; for a valid label value the services are those labelled for the agent, and with nothing refused it succeeds; in general it then succeeds exactly when the agent's selector parses |
| DeleteVM.Deleter.DeleteServices | actions/delete_vm.go:56-75 | deletes services that the agent's selector matches and no others, all of them on success |
| DeleteVM.Deleter.DeleteUnlessGone | actions/delete_vm.go:46-54 | a missing object is no error |
| DeleteVM.DeleteConverges | actions/delete_vm.go:20-85 | any number of failing runs, then a success, give the cluster of one success |
| DeleteVM.DeleteIsIdempotent | actions/delete_vm.go:20-85 | after a success a further run changes nothing |
| DeleteVM.OthersAreSafe | actions/delete_vm.go:20-85 | for a valid label value, other agents' pods, config maps and services survive every run |
| DeleteVM.OthersAreSafeExactly | actions/delete_vm.go:56-75 | services labelled for other agents survive a successful run if and only if the identifier is a valid label value or its selector matches no service |
| Cases.SignReachesOthers | actions/delete_vm.go:56-75 | for an identifier with an extra equality sign in front, HasVM and Delete reach the pod and the services of the identifier without it |
| Disks.DiskManager.CreateDisk | actions/create_disk.go:37-107 | adds at most one new claim, `disk-D` labelled D with the requested size and class; success means that it was added and that the trace saw a claim in phase `Bound` after claims in other phases only; with such a trace, a new claim and nothing refused it succeeds; the result is the resolved context, a colon and D |
| Disks.DiskManager.DeleteDisk | actions/delete_disk.go:15-23 | succeeds exactly when the claim exists and the call is served, and removes only it |
| Disks.DiskManager.GetDisks | actions/get_disks.go:19-53 | one cloud ID, of the context as given and the disk label, for each volume whose claim is there and has the label, in volume order; none without a pod; an answer whenever nothing is refused |
| Disks.FoundListsDisks | actions/get_disks.go:36-52 | the disks found are those of the volumes that lead to one, at increasing positions, none missing |
| Metadata.DiskIdentity | actions/set_disk_metadata.go:39-56 | the identifying label survives exactly when no entry gives it another value |
| Metadata.MergedLabel | actions/set_vm_metadata.go:38-43 | in any order, a label set by valid entries has the value of one of them, and every other label is as before |
| Metadata.MergeRelabels | actions/set_vm_metadata.go:38-43 | in any order the merge sets every valid entry and nothing else |
| Metadata.OrderMattersExactly | actions/set_vm_metadata.go:38-43 | the merge is independent of iteration order if and only if valid entries with one lower-cased key agree |
| Cases.OrderOfTwoEntries | actions/set_vm_metadata.go:38-43 | the entries `Job` and `job`: either value, by the iteration order |
| Cases.CreatedAtIsPassedOver | actions/set_vm_metadata.go:38-43 | the entries `created_at`, a time with colons, and `job`: in either order the time is passed over and the job set |
| Cases.AttachedAtIsSet | actions/set_disk_metadata.go:39-56 | the disk entry `attached_at`, the same time, is valid and set with underscores |
| Metadata.Setter.SetDiskMetadata | actions/set_disk_metadata.go:22-64 | all labels or none, the same in every iteration order; each entry's label has its value, for `attached_at` with the colons replaced, and every other label is as before |
| Metadata.Setter.LabelDisk | actions/set_disk_metadata.go:39-56 | in any order, succeeds exactly when every entry is valid, with all of them set |
| Metadata.Setter.SetVMMetadata | actions/set_vm_metadata.go:20-61 | every label is as before or comes from an entry whose prefixed lower-cased key and whose value are valid; every such entry's label is set, to the value of one such entry; nothing else changes; an error changes nothing; with nothing refused it fails exactly without a pod, or for a valid entry on a pod without labels |
| Metadata.Setter.LabelPod | actions/set_vm_metadata.go:38-43 | the loop is the merge in the order taken, sets valid entries and passes over all others, and panics on a valid entry for a pod without labels |
| Lookups.Finder.HasVM | actions/has_vm.go:16-44 | true exactly when the agent's selector matches a pod of the namespace of the context, for a valid label value a pod labelled for it; an error when the selector does not parse or the context is not configured |
| Lookups.Finder.HasDisk | actions/has_disk.go:16-35 | the same for the disk's selector and the claims of the namespace |
| Lookups.LabelsAgreeWithNames | actions/has_vm.go:16-44 | under the label index and for a valid label value, HasVM and HasDisk hold exactly when the pod or the claim of that name exists |
| Lookups.LookupNeedsLabelValue | actions/has_vm.go:16-44 | HasVM and HasDisk agree with the names in every cluster with the index if and only if the identifier is a valid label value |
| Lookups.LabelVMKeepsIndex | actions/set_vm_metadata.go:38-55 | setting VM metadata keeps the index in every iteration order if and only if no valid entry lower-cases to the agent label with another value |
| Cases.AgentIdHidesVM | actions/set_vm_metadata.go:38-55 | the one entry `agent-id` with another value: the pod is there by name, and HasVM misses it |
| Lookups.LabelDiskKeepsIndex | actions/set_disk_metadata.go:39-61 | setting disk metadata keeps the index if and only if `disk-id` is absent or unchanged, or an invalid entry stops the call |
| Cases.DiskIdHidesDisk | actions/set_disk_metadata.go:39-61 | the one entry `disk-id` with another value: the claim is there by name, and HasDisk misses it |
| Reachability.MoveKeepsIndex | actions/volume_manager.go:98-103 | every single call of every operation keeps the index of stored objects and of copies in flight, when requests keep the identifying labels |
| Reachability.RecreateIsMoves | actions/volume_manager.go:76-124 | every outcome of an attach or detach is reached by such calls |
| Reachability.CreateIsMoves | actions/create_vm.go:119-184 | every outcome of Create is reached by such calls |
| Reachability.DeleteIsMoves | actions/delete_vm.go:20-44 | every outcome of Delete is reached by such calls |
| Reachability.CreateDiskIsMoves | actions/create_disk.go:75-86 | every outcome of CreateDisk is reached by such calls |
| Reachability.DeleteDiskIsMoves | actions/delete_disk.go:15-23 | every outcome of DeleteDisk is reached by such calls |
| Reachability.SetDiskIsMoves | actions/set_disk_metadata.go:22-64 | every outcome of SetDiskMetadata that keeps `disk-id` is reached by such calls |
| Reachability.SetVMIsMoves | actions/set_vm_metadata.go:20-61 | every outcome of SetVMMetadata that keeps the agent label is reached by such calls |
| Reachability.IndexInEveryReachableCluster | actions/has_disk.go:16-35 | in every cluster reachable by the calls of all operations in any interleaving, lookup of a valid label value by label is lookup by name |
| Reachability.GetDisksInEveryReachableCluster | actions/get_disks.go:36-52 | in every such cluster, the agent's pod being there and neither it nor its config map made or deleted by hand, GetDisks finds in order exactly the disks of an account that stands for the objects whose claims exist |
| Lookups.GetDisksRefines | actions/get_disks.go:36-52 | from a pod in normal form GetDisks leads, in order, to exactly the attached disks whose claims exist |
| Lookups.GetDisksMatchesRecord | actions/get_disks.go:48-50 | with no claim lost, the result equals the config map's keys if and only if the VM was named through the resolved context, that is through a named one or with an empty current context, or has no disks |
| Cases.SmallEmptyContext | actions/get_disks.go:48-50 | a concrete cluster: the config map records `ctx:d`, and GetDisks through the empty context answers `:d` |
| Lookups.GetDisksAfterRuns | actions/get_disks.go:36-52 | at every moment of every schedule with the pod there, refusals and runs in flight included, GetDisks finds in order exactly the pod's disks whose claims exist; where the places agree it compares with the config map as in GetDisksMatchesRecord |
| Lookups.GetDisksAfterProperRuns | actions/get_disks.go:36-52 | after proper requests these are the disks the requests left attached |

## Left out

- Resource versions, UIDs and update conflicts: two writers of one object are ordered by their calls and never rejected for a stale version.
- Selectors.Parse: takes the rest of the text and of the tokens as values, because the cursor of the library's lexer and parser shows in nothing it returns; requirements are not sorted by key, because matching is their conjunction.
- PrintedSelectors.PrintedParses: leaves out the relations `in` and `notin`, whose values are printed as a sorted set.
- JSON as text: settings are a JSON tree or malformed text, and the decoder's case-insensitive key matching is not modelled.
- The bytes of the strategic merge patch: the patch is the set of changed labels it carries.
- Pods made by the cluster for a deployment: a deployment is stored and nothing follows from it, so the label index is about clusters without such pods.
- Interleaving in the account of attach and detach: create, delete and disk operations are not actions of `Recreate.Act`, where an agent's pod and config map are taken to live on; they are calls of `Reachability`.
- Reachability.IndexInEveryReachableCluster: requires that no request gives an identifying label another value, because the setters would overwrite it; the exact conditions are in LabelVMKeepsIndex and LabelDiskKeepsIndex.
- Agreement.ThreeWayAgreement: covers histories whose requests all succeeded, because a failed request can leave the places apart; RunKeepsAgreementExactly, RetryRecoversObjects and LostPodStaysLost say what happens after a failure.
- CreateVM.Creator.Create: gives one error value for every failure after the client was made, because the error texts carry no state.
- PodEditing.Slice.Append: grows a full array by a rule of its own, because how much room a Go slice gets is not observable in the spec.
- Several runs in flight for one agent: the pod delete and create carry no version check, so nothing orders them.
- Integer widths of ports, replica counts and generations: they are carried or compared, never computed with.
- Real time, the sleep after a recreate, and the random choice between a pending event and the timer: the trace fixes an order.
- The mutex in createServices: it is local to one loop iteration.
- Constant pod fields that nothing edits, such as pull policy, arguments, the deployment's progress deadline and the claim's access mode.
- The conversion of a network by re-marshalling: its fields are copied by name.
- Generation of identifiers, request dispatch, command-line and configuration loading, and client construction apart from resolving the empty context.
- The stemcell and info actions, which do nothing with the cluster.
