# A verified model of the Yandex.Cloud CSI driver

The driver creates, attaches, resizes and mounts cloud disks for a container orchestrator.
Both its halves are a set of check-then-act handlers that the orchestrator retries and runs
concurrently, and the promises that matter (no disk attached twice, no file system formatted
away, every retry harmless) span several handlers, several calls and several machines. This
project models those handlers in Dafny and proves the promises for every request, every run
and every pattern of failures.

## How it is built

* **Handlers twice.** `Handlers.dfy` cuts the five controller calls at every cloud call and
  every access to the lock map and makes each piece a step. `Driver.dfy` holds the same calls
  as they are written, as methods of a class working on an SDK object (`Operation.dfy`) and
  the lock map (`Lock.dfy`). Each method is proved to end in the state and the reply of its
  call in the step machine, so what is proved about the steps is about the methods. The node
  service is done the same way: `Node.dfy` cuts the four node calls at every command they run,
  and the methods of `Node.NodeService` and `Mounter.SystemMounter` are proved to end as the
  steps do, for any change of devices between the commands.
* **Answers in tables.** `Answers.dfy` and `NodeAnswers.dfy` give for every call, without
  mentioning a step, what it answers and leaves behind, for every request, state and fault.
* **Failures as data.** An `Oracle` fixes for one controller call which reads succeed, how the
  mutating call ends, and the id of a disk it may create. A mutating call ends acknowledged,
  executed with an unreadable response, executed with its reply lost, or not executed; an
  effect happens before the reply or never. `Commands` plays that part for a node call:
  blkid may fail with any status, 2 included; mkfs, mount and umount take effect or not, with
  or without an error; findmnt answers, complains, or ends without a word. Quantifying over
  them is quantifying over every fault.
* **Runs.** `System.dfy` and `Fleet.dfy` keep any number of calls in flight, on the controller
  and on the nodes, and advance them one step at a time in any order. At most one call per
  volume id, one create per name, and one call per path of a node is in flight (CSI
  specification v1.11.0, Overview, "Concurrency"). Instances may disappear, node processes may be
  killed, disks may be resized from outside and devices may come and go; a theorem that needs this not to happen
  says so. An event that is not possible does nothing, so every sequence of events is a run.
  `Cluster.dfy` puts both together under an orchestrator that follows the staged volume
  lifecycle (CSI specification v1.11.0, "Volume Lifecycle", Figure 6).
* **The cloud** (`Cloud.dfy`) refuses to resize or delete attached disks and to detach what
  is not attached, gives out fresh ids, and lists by exact name. It lets a disk be attached
  to many instances and a name be used by many disks: single attachment and unique names rest
  on the driver alone. The disk table may hold disks of any origin, such as boot disks or disks
  attached by hand under other device names.
* **Numbers and strings.** `Int64` is the wrap-around of a Go `int64`; the bitwise operators
  are defined bit by bit on integers; a `float64` is its rounded value as a real; a volume id
  is a sequence of bytes and other strings are sequences of code points.

The main results are `Serializability.InterleavingsSerialize` with `DisturbedExactly`,
`Retry.RetriesConverge` with `RetryAmidOthers.RetriesConvergeAmidOthers`,
`Tracking.TrackedExactly` with `SingleWriter` and `LeaksExactly`,
`ResizeLock.LockMapRefinesHistory` with `StrandedExactly` and `LocksAreRecoverable`,
`DiskTable.TableInvariant`, `CreateIdempotence.RepeatedCreate`, `Fleet.MountDepth`,
`Formatting.NeverReformatted` with `ClusterDisks.NeverReformattedAnywhere`, and
`BlockSize.ParserGrammar`.

## What the proofs say about the code

* A findmnt that fails without output reads as "not mounted" (driver/mounter.go:281-287),
  whether it found nothing or was killed or could not be started. On a mounted path a
  repeated stage then stacks a second mount, and an unstage reports success and leaves the
  mount (`NodeSafety.SilentFindmntMisleads`); one such unstage lets an orchestrator that
  follows every rule mount the volume on two nodes (`TwoWriters.BlindUnstageAllowsTwoWriters`).
  The theorems on mounts say exactly when this happens: `NodeSafety.CallKeepsDepth`,
  `NodeSafety.UnmountEmpties`, `Fleet.MountDepth`, `Tracking.TrackedExactly` and
  `Tracking.LeaksExactly` are equivalences.
* blkid's status 2 reads as "unformatted" (driver/mounter.go:250-252), but blkid also gives it
  when there is no device. A stage that runs blkid before udev has made the by-id link and
  mkfs after it overwrites whatever file system the disk holds
  (`Formatting.LateLinkOverwrites`). `ClusterDisks.NeverReformattedAnywhere` shows that in a
  cluster run by the rules, as long as device names on an instance are distinct, this, or a
  wrong status 2, is the only way a file system is lost.
* A lost reply can strand a resize lock. When the update of a locked, detached volume is
  executed but its reply is lost, the disk has the requested size, so every repetition of the
  request takes the early return (driver/controller.go:580-588) and never reaches the removal
  (driver/controller.go:606); publishing stays refused until a larger request succeeds or the
  driver restarts. `ClearedIffStillExceeding` gives the exact condition for one world,
  `StrandedExactly` for every run, and `StrandingHappens` a run that gets there from a fresh
  driver.
* The repository's README says that an attempt to shrink a volume leads to an error
  (README.md:42). The code answers success with the current size (driver/controller.go:580-588),
  as the next point of that README describes; the model follows the code
  (`Answers.ExpandAlone`).
* When the node disappears between a publish's reads and its attach call, the answer is
  Internal, which no serial order gives (`Serializability.DisturbedPublish`). For publish and
  unpublish this is the only way an instance that goes down shows
  (`Serializability.DisturbedExactly`).
* An unpublish from a live node of a volume that is attached elsewhere answers Internal
  (`Answers.UnpublishAlone`), not success.
* The comment on `extractStorage` promises the default size for a range that is not satisfied
  (driver/controller.go:667-670); the code gives it only when neither bound is set.
* Besides the suffixes `K`, `Ki` and `KiB` of README.md:48 the parser takes `KB` and `k`.

## Model

| member | source | states |
|---|---|---|
| Answers.CreateAlone | driver/controller.go:90-246 | for every request, world and fault: which requests are refused with which code, when an existing disk is answered and when refused, and that a new disk has the name, type, size and block size asked for and the zone of the last requirement, which with its region is also the topology answered |
| Answers.DeleteAlone | driver/controller.go:249-280 | for every world and fault: exactly this disk goes if it is there and detached, an attached one is an error, and one that is not there counts as deleted |
| Answers.PublishAlone | driver/controller.go:283-370 | for every request, world and fault: the refusals in their order, a read-only request among them, success without a call for a node that has the volume, and otherwise the attachment of a detached disk to this node under the derived name |
| Answers.UnpublishAlone | driver/controller.go:373-423 | for every request, world and fault: what needs nothing done, that a live node without the volume is an error when another has it, and that otherwise exactly this attachment goes |
| Answers.ExpandAlone | driver/controller.go:552-620 | for every request, world and fault: a request for no more than the disk has succeeds with the current size, an attached disk is locked, and a detached one gets exactly the size selected for its block size and is unlocked |
| NodeAnswers.StageAnswers | driver/node.go:111-206 | for every request, host, outcome of the commands and change of devices: what is formatted with which type, which errors end the call, and which mount is made with which type and flags |
| NodeAnswers.StageOfBlankDisk | driver/node.go:144-197 | when all goes well a blank disk gets the file system asked for, or ext4, and is mounted as such with exactly the flags asked for |
| NodeAnswers.PublishAnswers | driver/node.go:245-291 | for every request, host and outcome of the commands: a bind mount of the staging path, or of the volume's device file without a type, read-only when asked for, with the flags asked for |
| NodeAnswers.PublishOfStagedVolume | driver/node.go:270-291 | when all goes well the target gets one mount of what the staging path shows, with "ro" exactly when the request or its flags ask for it |
| NodeAnswers.UnmountAnswers | driver/node.go:209-242 | for every host and outcome of the commands, what an unstage or unpublish answers and that it takes off the newest mount of its path and nothing else |
| Serializability.InterleavingsSerialize | driver/controller.go:90-423 | for every interleaving of any calls, with instances that disappear and disks resized from outside as long as no call in flight has read what they change and builds on it: once all have returned, the disk table, the lock map and every reply are those of the same calls, each once, and the same outside events, one at a time, in the order of mutating call or last read |
| Serializability.DisturbedPublish | driver/controller.go:350-359 | the condition is needed: a publish whose node disappears between its read and its attach call gives a reply that no serial order gives |
| Serializability.DisturbedExactly | driver/controller.go:312-423 | when an instance goes down while a publish or unpublish is in flight, world and reply are those of one of the two serial orders, except exactly when it is the call's own instance and goes down before an attach or detach that would have been acknowledged |
| Serializability.OrderRespectsRealTime | driver/controller.go:90-423 | in that serial order a call that returned before another began comes first |
| Retry.RetriesConverge | driver/controller.go:157-423 | any attempts at one call, each failing anywhere with or without its effect, and then a success leave the cloud as one fault-free call does up to the new id, with its answer, and at most one attempt had an effect |
| RetryAmidOthers.RetriesConvergeAmidOthers | driver/controller.go:157-423 | the same for attempts inside a run with other volumes' calls in flight between and during them: what the call is about ends as one fault-free call leaves it, with its answer, and at most one attempt had an effect |
| Retry.RetriedExpansionSize | driver/controller.go:580-598 | after retries ending in success the disk differs only in its size, which is the larger of old and requested |
| Retry.SuccessMeansDone | driver/controller.go:157-423 | whenever one of the five calls succeeds, the cloud is in the state the call asks for and the reply describes it |
| Retry.DoneStays | driver/controller.go:157-423 | from such a state the call has no further effect under any faults, and a successful repetition gives the same answer |
| Retry.RetriesSucceed | driver/controller.go:157-423 | after any failed attempts a fault-free attempt succeeds whenever it would have in the first place |
| Retry.EffectIsClean | ychelpers/operation_wrapper.go:29-46 | an attempt leaves the cloud alone or has exactly the fault-free effect |
| Tracking.TrackedExactly | driver/node.go:191-238 | over every run of the cluster, all calls interleaved command by command and with distinct device names, the orchestrator knows of every mount that shows a disk if and only if no unstage or unpublish reports success and leaves one on its path |
| Tracking.SingleWriter | driver/node.go:191-238 | in such runs without a leak a mount that shows a disk is on the one instance the disk is attached to, so no two nodes hold mounts of one volume |
| Tracking.LeaksExactly | driver/node.go:225-238 | a command leaks exactly when it is an unmounting call's findmnt without output on a path that shows a disk, or a umount of the newest of several mounts over one |
| Tracking.LeakingUmountIsStacked | driver/node.go:191-202 | a path that a umount leaks on was mounted on once more by an earlier call with a blind findmnt |
| Tracking.SingleWriterWhenSighted | driver/node.go:191-238 | without a blind findmnt no two nodes hold mounts of one volume |
| Cluster.RunsStayOrderly | driver/controller.go:312-423 | whatever the commands do, what the orchestrator takes to be published is attached and nobody is detaching it, paths in use are for one volume each, and a call in flight holds the paths and the device file it works on |
| TwoWriters.BlindUnstageAllowsTwoWriters | driver/mounter.go:281-287 | a run by the rules in which exactly one findmnt is blind, that of one unstage, and the volume ends up mounted on two nodes |
| ClusterDisks.NeverReformattedAnywhere | driver/node.go:166-182 | over every run of the cluster with distinct device names no file system is lost and no disk formatted twice, if and only if no stage ran blkid on its own volume before the link was there, or got a wrong 2, and then formatted it |
| Attachment.RunsKeepSingle | driver/controller.go:330-346 | in no run does a disk get a second instance, although the cloud would allow it, and every attachment that was not there at the start is to a live instance under the name derived from the id |
| Attachment.PublishedMeansAttached | driver/controller.go:312-369 | at the moment a publish reports success the disk is attached to that node |
| Attachment.RacingPublishesAttachTwice | driver/controller.go:330-359 | for every detached disk, two publishes of it that both read before either attaches end with two attachments, so the one-call-per-volume rule is needed |
| Attachment.DevicesResolve | driver/controller.go:350-356 | in every run, for every attached disk of any origin, the by-id path computed from its id leads to exactly that disk if and only if it has the derived device name and no other disk on the instance has it; only disks attached otherwise from the start lack it |
| DiskTable.TableInvariant | driver/controller.go:207-216 | in every run without outside resizing ids are not reused, block sizes never change, sizes never shrink, and created disks have a legal block size and 0 < size <= blockSize * 2^31 <= 2^48 |
| DiskTable.IdentityInvariant | driver/controller.go:207-216 | in every run whatsoever ids are not reused, name, type, zone and block size of a disk never change, and created disks have a legal block size |
| DiskTable.StepGrows | driver/controller.go:563-598 | one handler step keeps all of that, including an expansion computed from the disk's own block size |
| DiskTable.NamesStayUnique | driver/controller.go:157-172 | at most one disk per name after every interleaving, lost reply and outside event |
| CreateIdempotence.RepeatedCreate | driver/controller.go:167-205 | after a create that returned success in the middle of any run, and any run that neither deletes nor resizes the disk, the same create gives the same id, capacity and topology and changes nothing; another size or block size is refused, and only that |
| CreateIdempotence.ExpandAsCreated | driver/controller.go:563-588 | expanding with the range used to create changes nothing and reports the created size |
| ResizeLock.LockMapRefinesHistory | driver/controller.go:599-606 | from a driver start a volume is locked exactly when the cloud's latest readable verdict on an update of it was a rejection, and no attach call is issued between a rejection and the next acknowledgement |
| ResizeLock.StrandedExactly | driver/controller.go:563-606 | in every run without outside resizing, the last rejected request no longer asks for more than the disk has exactly when a later update was executed with its reply lost and was at least as large |
| ResizeLock.LocksAreRecoverable | driver/controller.go:568-606 | without lost replies and outside resizing a locked disk is smaller than the request last rejected; repeating it is rejected while attached, and once detached resizes, unlocks and lets a publish through |
| ResizeLock.ClearedIffStillExceeding | driver/controller.go:580-588 | a fault-free repetition for a locked, detached disk clears the lock if and only if it asks for more than the disk has |
| ResizeLock.LostReplyStrandsLock | driver/controller.go:587-606 | after an executed but unacknowledged update no number of repetitions clears the lock, and every publish is refused |
| ResizeLock.StrandingHappens | driver/controller.go:599-606 | a concrete run from a driver start that reaches such a state |
| Driver.Controller.CreateVolume | driver/controller.go:90-246 | the method ends in the state and reply of the create call run alone in the step machine, for every request and fault |
| Driver.Controller.CreatePlanned | driver/controller.go:157-245 | the part from the listing on does what the machine does from that step |
| Driver.Controller.DeleteVolume | driver/controller.go:249-280 | the same for delete, with NotFound taken as success |
| Driver.Controller.ControllerPublishVolume | driver/controller.go:283-370 | the same for publish |
| Driver.Controller.ControllerUnpublishVolume | driver/controller.go:373-423 | the same for unpublish |
| Driver.Controller.ControllerExpandVolume | driver/controller.go:552-588 | the same for expand |
| Driver.Controller.ExpandTo | driver/controller.go:590-620 | the part from the update on, with the lock put on rejection and removed on acknowledgement |
| Driver.ValidateCapabilities | driver/controller.go:748-765 | the loop collects exactly the violations of all capabilities; there are none exactly when all ask for single-node writing, as block or mount |
| Driver.ReadTopology | driver/controller.go:127-142 | the loop gives region and zone of the last topology, nothing for none, and fails exactly if any lacks a region or a zone |
| Driver.IsAmong | driver/controller.go:330-339 | the loop finds the node exactly when it is among the instances, in whatever order they come |
| Operation.WaitForResult | ychelpers/operation_wrapper.go:29-46 | whatever happens at submission, which may refuse at once, at polling and at the response, the cloud and the error are those of one of the four ways a mutating call can end |
| Operation.PendingOperation.Wait | ychelpers/operation_wrapper.go:35-38 | polling reports the operation's verdict exactly when it was known at once or is seen before a failure |
| Operation.FateExactly | ychelpers/operation_wrapper.go:29-46 | a call is acknowledged exactly when it is followed to its end and its response can be read, and has no effect exactly when it is lost sight of and not executed |
| Lock.RwMap.constructor | driver/lock.go:12-16 | a new lock map holds no volume |
| Lock.RwMap.PutVolId | driver/lock.go:18-23 | adds exactly this volume |
| Lock.RwMap.RemoveVolId | driver/lock.go:25-30 | removes exactly this volume |
| Lock.RwMap.VolIdExists | driver/lock.go:32-39 | answers membership |
| BlockSize.ParserGrammar | driver/controller.go:632-665 | the parser accepts exactly the texts of the form blanks, optional sign, digits, optional blanks and suffix, blanks that denote one of the six legal sizes, with that size |
| BlockSize.ParseBlockSize | driver/controller.go:632-665 | the method computes the function the grammar theorem is about |
| BlockSize.CutSuffix | driver/controller.go:635-642 | the suffix loop, with its early exit, cuts off the first suffix that matches |
| BlockSize.PrintThenParse | driver/controller.go:629-665 | a legal size printed in bytes, or in KiB with any suffix, under any padding parses back to itself |
| BlockSize.SuffixesExclusive | driver/controller.go:636-641 | no text ends in two of the suffixes, so their order does not matter |
| BlockSize.SuffixesByName | driver/controller.go:635-642 | the suffixes are these five, each worth 1024 |
| BlockSize.CheckedSizeAcceptsLegal | driver/controller.go:649-664 | the checks pass exactly the legal products, and the range guard keeps the int64 multiplication from wrapping |
| BlockSize.PowerOfTwoTest | driver/controller.go:660-662 | for every positive n, n & (n-1) is zero if and only if n is a power of two |
| BlockSize.LegalIffPowerOfTwoInRange | driver/controller.go:655-662 | with the range guard that leaves exactly 2^12 to 2^17 |
| Capacity.MaximumVolumeSizeExact | driver/controller.go:625-627 | for a legal block size the int64 product is exact, blockSize * 2^31, above the default size and at most 2^48 |
| Capacity.SelectionSpecified | driver/controller.go:671-718 | for every range and maximum, when a size is selected, which one, its bounds, and the one case of a size below 4 MiB |
| Capacity.RaisingTheMaximum | driver/controller.go:697-703 | a larger maximum keeps every accepted range with the same size |
| ByteFormat.FormatBytes | driver/controller.go:720-744 | the method computes the text the next row is about |
| ByteFormat.PrintedWithin | driver/controller.go:720-744 | below 2^53 the printed number times its unit is within 0.05 units of the input, and whole numbers of units print exactly, without decimals |
| ByteFormat.UnitsByName | driver/controller.go:724-736 | the unit is the largest power of 1024 that fits, up to 2^40, and each is printed under its own name |
| ByteFormat.PrintedExamples | driver/controller.go:720-744 | 0, 1536 and 5 * 2^30 print as 0, 1.5Ki and 5Gi |
| ByteFormat.NegativePrinted | driver/controller.go:720-744 | a negative number is printed in bytes as it is |
| DiskName.HashIsFnv1a | driver/encoding.go:25-29 | the hash of an id and one more byte is the hash of the id, xored with the byte and then multiplied by 16777619 modulo 2^32, from 2166136261 on |
| DiskName.HashOfA | driver/node.go:651-653 | the device name and by-id path of the id "a" are those with the published hash 3826002220 |
| DiskName.StepIsBijective | driver/encoding.go:25-29 | a hash step with a fixed byte is a bijection of the 32-bit state |
| DiskName.StepSeparatesBytes | driver/encoding.go:25-29 | from one state different bytes lead to different states |
| DiskName.NearIdsGetDifferentNames | driver/encoding.go:25-29 | ids of equal length that differ in exactly one byte get different device names |
| DiskName.NameIdentifiesHash | driver/encoding.go:25-29 | device names are equal if and only if the hashes are |
| Mounter.SystemMounter.Format | driver/mounter.go:95-137 | what is on the disk the link leads to, and in the record, afterwards, for every way mkfs can end |
| Mounter.SystemMounter.Mount | driver/mounter.go:139-196 | which mount is added where, if any |
| Mounter.SystemMounter.Unmount | driver/mounter.go:198-218 | the newest mount of the target goes, if any |
| Mounter.SystemMounter.IsFormatted | driver/mounter.go:220-259 | how blkid's exit status is read |
| Mounter.SystemMounter.IsMounted | driver/mounter.go:261-318 | no output means not mounted, with or without an error; otherwise an error fails, and the scan of findmnt's rows finds the target, and fails on a mount that is not propagated |
| Node.CheckAndRepairFilesystem | driver/node.go:84-105 | only exit status 4 stops the mount |
| Node.NodeService.NodeStageVolume | driver/node.go:111-206 | the method ends in the host state and reply of the stage call in the step machine, for every outcome of its commands and change of devices between them |
| Node.NodeService.NodeUnstageVolume | driver/node.go:209-242 | the same for unstage |
| Node.NodeService.NodePublishVolume | driver/node.go:245-291 | the same for publish, as file system or block |
| Node.NodeService.NodeUnpublishVolume | driver/node.go:294-327 | the same for unpublish |
| Node.NodeService.MountUnlessMounted | driver/node.go:596-615 | checks, then mounts only an unmounted target |
| Node.NodeService.UnmountIfMounted | driver/node.go:310-323 | checks, then unmounts only a mounted target |
| Fleet.MountDepth | driver/node.go:191-202 | over every run of interleaved node calls no path ever carries more than one mount, if and only if no call mounts after its findmnt ended without a word on a mounted path |
| NodeSafety.CallKeepsDepth | driver/node.go:596-615 | one call keeps every path at one mount if and only if it does not mount after a blind findmnt |
| NodeSafety.SilentFindmntMisleads | driver/mounter.go:281-287 | after any stage that mounted, a blind repetition leaves two mounts and succeeds, and a blind unstage succeeds and leaves the mount |
| NodeSafety.UnmountEmpties | driver/node.go:225-238 | a successful unstage or unpublish leaves its path unmounted and everything else as it was, if and only if its findmnt was not blind; otherwise it changes nothing |
| NodeSafety.MountThenUnmountRestores | driver/node.go:596-615 | from an unmounted target a stage or publish, however it ends, and then a successful unstage or unpublish restore the mount table, if and only if the second findmnt is not blind |
| NodeSafety.RepeatedCallChangesNothing | driver/node.go:310-323 | repeating any of the four calls after it succeeded changes nothing, whatever its commands do, with exactly three exceptions: a blind findmnt, a misled mkfs, and an unmount that was blind the first time |
| NodeSafety.RepeatedStageFormatsNothing | driver/node.go:166-182 | with devices that stay and an honest blkid the repeated stage formats nothing |
| Formatting.ProbedBefore | driver/mounter.go:241-258 | every mkfs that writes follows a blkid of the same call that ended with status 2 |
| Formatting.NeverReformatted | driver/node.go:166-182 | over every run of interleaved node calls, with any failures and changes of devices between commands, file systems are kept, what is formatted was blank and no disk is formatted twice, if and only if no call was misled between its blkid and its mkfs |
| Formatting.FileSystemLostExactly | driver/node.go:166-182 | a disk with a file system is overwritten exactly when a blkid that gave 2 did not reach it or was wrong and the mkfs of that call then wrote to it |
| Formatting.CarefulRunsPreserve | driver/node.go:166-182 | with an honest blkid, links that stay from blkid to mkfs and one mkfs per disk at a time no file system is lost |
| Formatting.LateLinkOverwrites | driver/node.go:166-182 | a stage that runs blkid before the link appears and mkfs after it overwrites any file system |
| Formatting.AnnotatedNeverFormatted | driver/node.go:133-168 | a disk that only staged calls with the annotation, or block ones, lead to is never formatted |
| VolumeLimit.MaxVolumesPerNode | driver/node.go:379-429 | the counting loop and the platform table give the reported maximum |
| VolumeLimit.PlatformLimits | driver/node.go:395-421 | the limit is 14 above 18, 20 and 32 cores on the platforms named, and 8 otherwise |
| VolumeLimit.MaximumInNumbers | driver/node.go:379-429 | the maximum is the limit without the boot disk, the devices whose name does not start with csi- and, from 14 devices on, the network interfaces |
| VolumeLimit.AttachingLowersAtMostOnce | driver/node.go:385-429 | disks attached by publish all count as the driver's own and lower the maximum at most once, by exactly the number of network interfaces |
| VolumeLimit.MaximumKeepsPlatformLimit | driver/node.go:423-429 | the driver's disks stay within the reported maximum if and only if all devices stay within the platform limit |

## Left out

- Serializability.InterleavingsSerialize: says nothing about a call in flight that builds on a read an outside event has overtaken; for publish and unpublish and an instance that goes down DisturbedExactly does, one call at a time, but not for a resize from outside.
- RetryAmidOthers.RetriesConvergeAmidOthers: nothing happens from outside during the run, and for a create no other call deletes or resizes the disk of its name.
- ByteFormat.PrintedWithin: states the error bound below 2^53 only; above it the conversion to float64 itself rounds, which FormatBytes models but this bound does not include.
- Mounter.SystemMounter.Mount: models the effect of the command, not its argument list, the directories and files it creates, or the rules of the kernel beyond needing a file system on the device.
- Mounter.SystemMounter.IsMounted: takes paths to be canonical, so that findmnt's target column repeats the path asked for.
- Mounter.SystemMounter.IsFormatted: blkid does not report status 0 where there is no file system.
- Node.NodeService.NodeStageVolume: requires the access type to be block or mount, which CreateVolume has checked.
- Operation.WaitForResult: rejections and transport failures are the only errors, and an effect that comes after the handler has returned is not modelled.
- Tracking.SingleWriter: takes for granted that no other disk on an instance has the device name of a volume published there, that a volume the run publishes was attached at the start at most once and only under its derived name, that while a stage or publish runs a command the by-id link of its volume, if there is one, leads to a disk attached under that name, and that the device file of an attached disk does not move.
- The mutex of the lock map: each of its methods is one atomic step.
- A restart of the driver: it begins a new run with an empty lock map, over any disk table. On the nodes a killed process only cuts its calls short.
- Unpublish with an empty node id: treated as an instance that does not exist.
- Error texts: a failed reply carries its status code only.
- The contents of replies that are constant, such as the key of the publish context, and the labels and description of a created disk.
- The gRPC and HTTP servers, startup, readiness, logging, command-line flags and metadata requests.
- ListVolumes, ValidateVolumeCapabilities, GetCapacity, the capability listings and the identity service: copies or constants.
- NodeGetVolumeStats and NodeExpandVolume: thin wrappers of system calls.
- Snapshots: not implemented in the driver.
- Charts and deployment files.
