# A verified model of the NNF API layer and port manager

This project models, in Dafny, the parts of the near-node-flash controllers where a mistake is hardest to see by reading
one function at a time, and proves what they keep.

- **Versioned storage profiles.** v1alpha11 is the hub; v1alpha10 and v1alpha9 are spokes. Down-conversion puts the whole
  hub into an annotation, up-conversion takes the hub-only fields back from it. `StorageTypes.dfy` has the three
  record shapes, `StorageConversionV9.dfy` and `StorageConversionV10.dfy` the conversions in the order the code assigns,
  `StorageLawsV9.dfy` the laws of the hard one, `StorageNames.dfy` and `StorageNameLaws.dfy` what becomes of each field
  under its name, and `StorageRuns.dfy` the theorem they serve: any interleaving of edits through any version is a
  series of edits of one record.
- **Admission.** The webhooks of container, storage and data-movement profiles, with their looping validators and the
  copy-offload expression (`ContainerProfile.dfy`, `StorageAdmission.dfy`, `DataMovementProfile.dfy`,
  `CopyOffloadRegex.dfy`), the variables overrides may set (`StorageVariables.dfy`), and what every run of requests
  keeps (`Admission.dfy`).
- **Memory.** Deep copies of maps of maps and arrays of structs, against generated conversions that share
  (`ECDataCopy.dfy`, `BlockStorageCopy.dfy`, `BlockStorageSharing.dfy`); annotation maps shared by source and destination
  (`Annotations.dfy`); lists of profiles (`ProfileLists.dfy`); pod specifications and their meaning to Kubernetes
  (`PodSpecs.dfy`, `PodSpecsV10.dfy`).
- **Aggregation** of resource states and healths (`ResourceStatus.dfy`).
- **The port manager.** Its reconciler, method by method (`PortManager.dfy`), the configuration's port iterator
  and the text of its ranges (`PortIterator.dfy`, `PortText.dfy`, `PortRanges.dfy`), claims of free ports
  (`PortClaims.dfy`), and the safety, stability and release of ports over whole runs (`PortManagerRuns.dfy`).

`GoValues.dfy` fixes how Go values appear: a slice or map as a value distinguishes nil from empty; where memory matters,
a slice is an array and a map is a cell. JSON with `omitempty` is the function `Canon`, which turns empty into nil.

## Findings

- A hub round trip is exact only up to nil and empty in the restored fields (`EmptyListIsForgotten`); the lemmas say
  exactly when it is exact.
- A pinned container profile that was created with something JSON does not give back as it was, such as `args: []`, an
  empty list inside a volume or probe, or a quantity like `1000m`, cannot be written back by a client of an old version,
  although it changes nothing and keeps the annotation: the value comes back different and the webhook compares deeply
  (`EmptyListBlocksWriteBack`, `WriteBackAccepted`).
- v1alpha9 documents one MDT capacity for MDT and combined targets. While the stash is kept, an edit of it does not reach
  the combined target (`CombinedCapacityFollowsIff`).
- The release time of a port allocation is never cleared. An allocation that is granted again over an entry that has been
  through a cooldown is not released by a later cooldown; it goes only when a reconcile finds it unasked for and no
  cooldown at all (`FreedIffNeverReleased`, `StaleReleaseTimeLeaksPorts`). A missing system configuration is enough to
  get into that state (`PortLostAfterMissingConfiguration`).
- A missing system configuration counts as a cooldown of zero: one reconcile without it gives up every port that is
  cooling or no longer asked for, and the next pass hands it to somebody else (`CooldownLostWithTheConfiguration`,
  `CoolingEndsIff`).
- A cooling allocation whose requester asks again loses its ports at once, and another requester can get them in the same
  pass (`CooldownCutShort`).
- Validation reads port ranges with a parser that takes a leading plus sign, the iterator with one that does not. A range
  such as `+5000-5010` is accepted, and neither its ports nor those of any later entry are ever handed out
  (`SignHidesTheRest`, `HandsOutAllIffUnsigned`, `PortsBehindASignAreNeverGranted`).
- The name of a Lustre file system is looked up in the overrides as `$FSNAME`, which admission rejects; it accepts
  `$FS_NAME`, which that lookup ignores (`FileSystemNameCannotBeOverridden`).
- No code ever puts an allocation into the Free phase, so ports are never claimed from one (`CoolingIsTimedInEveryRun`).
- A system configuration with overlapping entries passes validation and lets one grant hold a port twice
  (`GrantsAreDistinctIffNoOverlap`).
- A pinned storage profile can still be edited, unlike the pinned profiles of the other kinds; the code says so on
  purpose, and the theorem about runs of requests is accordingly weaker there (`PinnedStorageCanChange`).
- Conversion copies object metadata by assignment, so writing or removing the stash in one object changes the annotation
  map of the other (`EditThroughV9`).

## Model

| member | source | states |
|---|---|---|
| StorageRuns.RunRefinesDirectEdits | api/v1alpha9/conversion.go:424-639 | Whole runs: for every finite sequence of hub, v1alpha10 and v1alpha9 edits, with the stash kept, dropped, corrupted or replaced at each step, the stored hub is the record that direct edits of one single record lead to |
| StorageRuns.DirectHistoryExists | api/v1alpha10/conversion.go:422-460 | For every sequence of edits there is such a history of direct edits, so the refinement is never empty |
| StorageRuns.StoredIsDirect | api/v1alpha9/conversion.go:424-639 | One step down, edit, up, store shows exactly the edited fields in that version, and every other field is what the stash says |
| StorageRuns.DirectEditIsUnique | api/v1alpha9/conversion.go:512-552 | The fields a version shows and the fields the stash restores together determine the hub record |
| StorageRuns.V9EditsKeepTheHiddenHalf | api/v1alpha9/conversion.go:512-552 | After any number of v1alpha9 edits that keep the stash, everything v1alpha9 cannot show is as before, up to nil and empty |
| StorageRuns.SpokeEditsKeepHubOnlyFields | api/v1alpha10/conversion.go:437-445 | After any mixture of v1alpha9 and v1alpha10 edits the fields only the hub has are as before, up to nil and empty |
| StorageRuns.CrossSpokeTrip | api/v1alpha9/conversion.go:424-639 | v1alpha10 to hub to v1alpha9 to hub to v1alpha10: equal hub stops up to nil and empty, and the same v1alpha10 data exactly if no override map is empty without being nil |
| StorageRuns.EditThroughV9 | github/cluster-api/util/conversion/conversion.go:49-82 | The step of the run on heap objects: the stash travels through the annotation map that stored, spoke and written object share; a success removes it there, a corrupt one stores nothing |
| StorageRuns.EditThroughV10 | api/v1alpha10/conversion.go:422-460 | The step of the run through v1alpha10, on heap objects with the shared annotation map |
| StorageLawsV9.HubRoundTrip | api/v1alpha9/conversion.go:432-552 | Hub to v1alpha9 and back with the stash untouched: same visible data, same JSON, and the very same value exactly if none of the restored lists and maps is empty without being nil |
| StorageLawsV9.EmptyListIsForgotten | api/v1alpha9/conversion.go:546 | A hub profile whose empty PostTeardown list comes back nil |
| StorageLawsV9.SpokeRoundTrip | api/v1alpha9/conversion.go:512-552 | v1alpha9 to hub and back returns the same data under any stash, missing, stale or unrelated |
| StorageLawsV9.PartsDetermineHub | api/v1alpha9/conversion.go:432-552 | No hub field is carried by neither half: equal v1alpha9 view and equal restored fields mean equal hub data |
| StorageLawsV9.DownAfterJoin | api/v1alpha9/conversion.go:565-635 | Restoration writes only fields that down-conversion never reads, and all of them arrive |
| StorageLawsV9.CanonOfMixed | github/cluster-api/util/conversion/conversion.go:49-82 | Normalising the restored half first does not change what JSON makes of the whole |
| StorageNameLaws.UpByName9 | api/v1alpha9/conversion.go:432-552 | Under any stash every named field of the hub that up-conversion builds, in the whole profile, is the v1alpha9 field of that name; a field v1alpha9 has no name for is the one of that name in the stash or the destination, but for the combined capacity without a stash |
| StorageNameLaws.DownByName9 | api/v1alpha9/conversion.go:565-635 | Every field v1alpha9 shows is the hub field of the same name, in every section |
| StorageNameLaws.UpByName10 | api/v1alpha10/conversion.go:422-448 | The same for v1alpha10 going up |
| StorageNameLaws.DownByName10 | api/v1alpha10/zz_generated.conversion.go:3280-3301 | The same for v1alpha10 going down |
| StorageNameLaws.StashedByName | github/cluster-api/util/conversion/conversion.go:49-67 | The stash holds every field under its own name, as JSON gives it back |
| StorageNameLaws.WithoutStashByName | api/v1alpha9/conversion.go:505-512 | Without a stash and into a new object, what an old version has no name for arrives as zero |
| StorageNameLaws.ZeroIsZero | api/v1alpha11/nnfstorageprofile_types.go:28-480 | A new object is zero under every name |
| StorageNames.NamesCover | api/v1alpha11/nnfstorageprofile_types.go:28-480 | The names cover the hub profile: equal under every name means equal |
| StorageNames.NamesCover10 | api/v1alpha10/nnfstorageprofile_types.go:28-440 | The names cover the v1alpha10 profile |
| StorageNames.NamesCover9 | api/v1alpha9/nnfstorageprofile_types.go:28-420 | The names cover the v1alpha9 profile |
| StorageLawsV9.CrossedMappingIsHarmless | api/v1alpha9/conversion.go:432-503 | Running the crossed nested conversions before the manual passes, or leaving them out, gives the same result in both directions |
| StorageLawsV9.NestedKeepsHubOnlyFields | api/v1alpha9/conversion.go:802-868 | The nested up-conversion touches no hub-only field but the combined capacity |
| StorageLawsV9.NestedPairCrosses | api/v1alpha9/conversion.go:872-937 | Alone, the nested pair takes PostSetup from PostMount and PreTeardown from PreUnmount, and back, and leaves the other command lists |
| StorageLawsV9.NestedByName | api/v1alpha9/conversion.go:802-937 | Everything but the client commands the nested pair takes name for name, and the combined capacity from the MDT capacity |
| StorageLawsV9.NestedIsNameForNameIff | api/v1alpha9/conversion.go:802-868 | Alone and into a fresh destination the nested conversion is name for name exactly if every client command list is nil |
| StorageLawsV9.CombinedCapacityFollowsIff | api/v1alpha9/conversion.go:452-466 | The combined target follows an edited MDT capacity exactly if there is no stash or the stash already agrees |
| StorageLawsV9.CombinedCapacityCanLag | api/v1alpha9/conversion.go:514 | A kept stash that leaves the combined capacity behind, although the v1alpha9 field is documented to serve both |
| StorageConversionV9.ConvertTo | api/v1alpha9/conversion.go:424-555 | Generated pass, manual pass and restore, on objects: the result is the v1alpha9 data joined with the hub-only fields of the stash, or of the destination without one; a bad stash is an error |
| StorageConversionV9.ConvertFrom | api/v1alpha9/conversion.go:557-639 | The v1alpha9 view, and the whole hub data in the annotation map the two objects share |
| StorageConversionV9.ConvertLustreTo11 | api/v1alpha9/conversion.go:802-868 | The nested up-conversion, crossed as written |
| StorageConversionV9.ConvertLustreTo9 | api/v1alpha9/conversion.go:872-937 | The nested down-conversion, crossed as written |
| StorageConversionV9.ConvertSharedTo11 | api/v1alpha9/zz_generated.conversion.go:3683-3700 | Every field of a simple file-system section by name; the hub-only ones of the destination stay |
| StorageConversionV9.ConvertSharedTo9 | api/v1alpha9/conversion.go:1013-1031 | Every v1alpha9 field of a simple file-system section |
| StorageConversionV9.AssignLustre | api/v1alpha9/conversion.go:432-503 | The manual pass gives the name-for-name mapping whatever the nested one left, hub-only fields apart |
| StorageConversionV9.ReadLustre | api/v1alpha9/conversion.go:565-635 | The manual pass down gives the name-for-name view whatever the nested one left |
| StorageConversionV9.Restore | api/v1alpha9/conversion.go:512-552 | Takes exactly the hub-only fields from the stash |
| StorageConversionV10.ConvertTo | api/v1alpha10/conversion.go:422-448 | On objects: v1alpha10 data joined with the four PostTeardown lists of the stash or of the destination; a bad stash is an error |
| StorageConversionV10.ConvertFrom | api/v1alpha10/conversion.go:450-460 | The v1alpha10 view, and the whole hub data in the shared annotation map |
| StorageConversionV10.ConvertUserTo10 | api/v1alpha10/conversion.go:632-640 | Drops PostTeardown and copies the rest by name |
| StorageConversionV10.ConvertClientTo10 | api/v1alpha10/conversion.go:643-661 | Drops RabbitPostTeardown and copies the rest by name |
| StorageConversionV10.ConvertClientTo11 | api/v1alpha10/zz_generated.conversion.go:3493-3514 | Copies by name and leaves RabbitPostTeardown of the destination |
| StorageConversionV10.ConvertSharedTo11 | api/v1alpha10/zz_generated.conversion.go:3899-3920 | Copies a section by name and leaves its PostTeardown |
| StorageConversionV10.ConvertSharedTo10 | api/v1alpha10/zz_generated.conversion.go:3922-3943 | The v1alpha10 view of a section |
| StorageConversionV10.ConvertLustreTo11 | api/v1alpha10/zz_generated.conversion.go:3595-3618 | Copies the Lustre section by name and leaves RabbitPostTeardown |
| StorageConversionV10.ConvertLustreTo10 | api/v1alpha10/zz_generated.conversion.go:3620-3643 | The v1alpha10 view of the Lustre section |
| StorageConversionV10.ConvertDataTo11 | api/v1alpha10/zz_generated.conversion.go:3257-3278 | The whole record up |
| StorageConversionV10.ConvertDataTo10 | api/v1alpha10/zz_generated.conversion.go:3280-3301 | The whole record down |
| StorageConversionV10.HubRoundTrip | api/v1alpha10/conversion.go:422-460 | Hub to v1alpha10 and back with the stash untouched: same view, same JSON, same value exactly if none of the four hub-only lists is empty without being nil |
| StorageConversionV10.DownAfterJoin | api/v1alpha10/conversion.go:437-445 | Up then down returns the spoke data and the hub-only fields given |
| Annotations.MarshalData | github/cluster-api/util/conversion/conversion.go:49-67 | Stores the encoded hub in the destination's own map, in place if it has one, and keeps every other annotation |
| Annotations.UnmarshalData | github/cluster-api/util/conversion/conversion.go:70-82 | Missing, undecodable and decodable stash told apart; only a decodable one is removed |
| ContainerProfiles.ConvertTo | api/v1alpha10/conversion.go:67-88 | On objects: CreateContainer comes from the stash and is true without one |
| ContainerProfiles.ConvertFrom | api/v1alpha10/conversion.go:90-100 | The spoke view, and the whole hub data in the shared annotation map |
| ContainerProfiles.ConvertDataToHub | api/v1alpha10/zz_generated.conversion.go:1360-1377 | Copies by name and leaves CreateContainer of the destination |
| ContainerProfiles.ConvertDataFromHub | api/v1alpha10/zz_generated.conversion.go:1379-1392 | Copies by name and drops CreateContainer |
| ContainerProfiles.FieldsKeepTheirNames | api/v1alpha10/zz_generated.conversion.go:1360-1392 | Every field keeps its name up and down, and CreateContainer comes from the stash |
| ContainerProfiles.HubRoundTrip | api/v1alpha10/conversion.go:75-85 | Hub to spoke and back is exact with the stash, and without it exactly for profiles that create containers |
| ContainerProfiles.ValidateContent | api/v1alpha11/nnfcontainerprofile_webhook.go:107-174 | Accepts exactly: one of the two specs, MPI launcher names all matching the copy-offload setting, non-MPI containers present and none of them for copy offload, PVC modes on global storages only; each error is justified by the profile |
| ContainerProfiles.ContentOkIffNoFault | api/v1alpha11/nnfcontainerprofile_webhook.go:107-174 | Content is accepted exactly if none of the seven faults can be found |
| ContainerProfiles.ContentOkMeans | api/v1alpha11/nnfcontainerprofile_webhook.go:107-174 | The content rule container by container and storage by storage, with the prefix of global storages spelled out |
| ContainerProfiles.FirstMisnamed | api/v1alpha11/nnfcontainerprofile_webhook.go:125-160 | The first container whose name disagrees with the setting |
| ContainerProfiles.ValidateCreate | api/v1alpha11/nnfcontainerprofile_webhook.go:56-74 | Accepts exactly valid content, pinned or in the profile namespace |
| ContainerProfiles.ValidateUpdate | api/v1alpha11/nnfcontainerprofile_webhook.go:77-105 | Accepts exactly valid content with the same pin and, if pinned, the same data |
| ContainerProfiles.RulesMean | api/v1alpha11/nnfcontainerprofile_webhook.go:56-105 | Both admission rules in full |
| ContainerProfiles.PinnedProfileIsImmutable | api/v1alpha11/nnfcontainerprofile_webhook.go:77-105 | In every run of requests after an accepted creation, a pinned profile holds its creation data and every stored profile is valid |
| ContainerProfiles.WriteBackAccepted | api/v1alpha11/nnfcontainerprofile_webhook.go:88-97 | When a client of an old version may write back what it read, for every valid profile: always if it is unpinned; else exactly if a trip through JSON changes nothing in it, no list with omitempty that is empty without being nil and no unsettled value inside a volume, probe or environment entry, and, when the stash is dropped, it creates containers |
| ContainerProfiles.EmptyListBlocksWriteBack | api/v1alpha11/nnfcontainerprofile_webhook.go:88-97 | Two accepted pinned profiles that no client of an old version can write back, even with the stash: an explicit empty argument list, and an unsettled volume |
| ContainerProfiles.StoredProfileWriteBack | api/v1alpha10/conversion.go:75-85 | Corollary for valid profiles last written by a Go client: with the stash always accepted; without it, a pinned one exactly if it creates containers |
| ContainerProfiles.EncodedIsCanonical | github/cluster-api/util/conversion/conversion.go:49-67 | What has been through the encoder is not changed by going through it again |
| ContainerProfiles.CanonContainerMeans | github/cluster-api/util/conversion/conversion.go:49-82 | What JSON gives back of a container, field by field: the same, settled |
| ContainerProfiles.CanonPodMeans | github/cluster-api/util/conversion/conversion.go:49-82 | What JSON gives back of a pod specification, field by field |
| CopyOffloadRegex.MatchString | api/v1alpha11/nnfcontainerprofile_webhook.go:53 | A scanner that accepts a string exactly if the pattern, by the semantics of its operators, matches some part of it, and exactly if it contains the words delimited, in any case, joined, hyphenated or spaced |
| CopyOffloadRegex.MentionsMeans | api/v1alpha11/nnfcontainerprofile_webhook.go:52-53 | A mention letter by letter: one of three spellings, each letter in either case, nothing word-like before or after |
| CopyOffloadRegex.WordCharsAreListed | api/v1alpha11/nnfcontainerprofile_webhook.go:53 | What is word-like: the listed letters, digits and the underscore |
| CopyOffloadRegex.LiteralMatches | api/v1alpha11/nnfcontainerprofile_webhook.go:53 | A literal in the pattern matches exactly where its letters stand, case ignored |
| CopyOffloadRegex.PatternAt | api/v1alpha11/nnfcontainerprofile_webhook.go:53 | Where and how far the whole pattern matches |
| CopyOffloadRegex.FoundMeansMatched | api/v1alpha11/nnfcontainerprofile_webhook.go:53 | What the scanner finds is a match |
| CopyOffloadRegex.MatchedMeansFound | api/v1alpha11/nnfcontainerprofile_webhook.go:53 | No match escapes the scanner |
| CopyOffloadRegex.MentionedMeansFound | api/v1alpha11/nnfcontainerprofile_webhook.go:52-53 | No delimited mention escapes the scanner |
| Admission.RunKeeps | api/v1alpha11/nnfcontainerprofile_webhook.go:56-105 | For all three kinds: in every state reachable by one accepted creation and any requests, the pin is the creation's, frozen data is the creation's, the content is valid and unpinned profiles are in the profile namespace |
| Admission.UnpinnedCanBecomeAnything | api/v1alpha11/nnfdatamovementprofile_webhook.go:79-104 | Nothing else is kept: an unpinned profile can become any other valid unpinned one |
| DataMovementProfiles.Convert | api/v1alpha10/zz_generated.conversion.go:1720-1760 | Identity, in either direction |
| DataMovementProfiles.ValidateContent | api/v1alpha11/nnfdatamovementprofile_webhook.go:111-124 | Exactly: not default and pinned, slots within the limit where both are in force |
| DataMovementProfiles.ValidateCreate | api/v1alpha11/nnfdatamovementprofile_webhook.go:58-76 | Accepts exactly what the create rule says |
| DataMovementProfiles.ValidateUpdate | api/v1alpha11/nnfdatamovementprofile_webhook.go:79-104 | Accepts exactly what the update rule says |
| DataMovementProfiles.RulesMean | api/v1alpha11/nnfdatamovementprofile_webhook.go:58-124 | Both admission rules and the content rule in full |
| DataMovementProfiles.PinnedProfileIsImmutable | api/v1alpha11/nnfdatamovementprofile_webhook.go:79-104 | In every run a pinned profile holds its creation data, and is never the default |
| DataMovementProfiles.ReadAndWriteBack | api/v1alpha10/conversion.go:166-196 | Reading any valid stored profile through the old version and writing it back is always accepted |
| StorageAdmission.ValidateVariableOverrideKeys | api/v1alpha11/nnfstorageprofile_webhook.go:170-217 | Accepts exactly the subsets of the known keys, whatever the map order, and names an offending key otherwise |
| StorageAdmission.ValidateLustreTargetOptions | api/v1alpha11/nnfstorageprofile_webhook.go:156-166 | Rejects exactly Count and Scale both positive, or an unknown override key |
| StorageAdmission.ValidateContentLustre | api/v1alpha11/nnfstorageprofile_webhook.go:127-154 | Exactly: at most one MGT choice, every target acceptable, every override set known |
| StorageAdmission.ValidateContentShared | api/v1alpha11/nnfstorageprofile_webhook.go:108-125 | Exactly: the override sets of gfs2, xfs and raw are known |
| StorageAdmission.ValidateContent | api/v1alpha11/nnfstorageprofile_webhook.go:94-106 | Exactly: not default and pinned, and both sections acceptable |
| StorageAdmission.ValidateCreate | api/v1alpha11/nnfstorageprofile_webhook.go:50-66 | Accepts exactly what the create rule says |
| StorageAdmission.ValidateUpdate | api/v1alpha11/nnfstorageprofile_webhook.go:69-87 | Accepts exactly valid content with the same pin; the data of a pinned profile may differ |
| StorageAdmission.RulesMean | api/v1alpha11/nnfstorageprofile_webhook.go:50-87 | Both admission rules in full |
| StorageVariables.ContentOkMeans | api/v1alpha11/nnfstorageprofile_webhook.go:94-217 | The content rule by field names: every target, and every override map anywhere in the profile |
| StorageVariables.ValidKeysAreTheNamesInUse | api/v1alpha11/nnfstorageprofile_webhook.go:170-202 | The accepted override keys are exactly the variable names the code substitutes or looks up, but for nine |
| StorageVariables.FileSystemNameCannotBeOverridden | internal/controller/filesystem_helpers.go:544-548 | Of the names looked up in the overrides exactly $FSNAME can never be found in an accepted profile |
| StorageVariables.TargetOptionsByName | api/v1alpha11/nnfstorageprofile_types.go:495-508 | A target name gives the options of the target it names |
| StorageAdmission.RunKeepsValid | api/v1alpha11/nnfstorageprofile_webhook.go:50-106 | In every run the pin and validity are kept, and a profile created pinned never is the default |
| StorageAdmission.PinnedStorageCanChange | api/v1alpha11/nnfstorageprofile_webhook.go:69-87 | An accepted run that changes pinned storage data |
| PodSpecs.ToCorePodSpec | api/v1alpha11/nnfcontainerprofile_types.go:291-334 | Nil for nil; else the Kubernetes meaning of the pod, in arrays of its own |
| PodSpecs.Pod.FromCorePodSpec | api/v1alpha11/nnfcontainerprofile_types.go:377-410 | The receiver afterwards: the input over what the receiver held, in arrays of its own |
| PodSpecs.ToCoreContainers | api/v1alpha11/nnfcontainerprofile_types.go:298-310 | Container by container, nil for an empty list |
| PodSpecs.FromCoreContainers | api/v1alpha11/nnfcontainerprofile_types.go:382-390 | Container by container into fresh, zeroed entries |
| PodSpecs.ToCoreContainer | api/v1alpha11/nnfcontainerprofile_types.go:337-374 | One container to Kubernetes |
| PodSpecs.FromCoreContainer | api/v1alpha11/nnfcontainerprofile_types.go:413-446 | One container from Kubernetes; absent optional values keep what was there |
| PodSpecs.ContainerKeepsItsFields | api/v1alpha11/nnfcontainerprofile_types.go:337-446 | A container keeps every field, under its own name, to Kubernetes and from it into a fresh entry, with no list nil |
| PodSpecs.MeaningKeepsTheFields | api/v1alpha11/nnfcontainerprofile_types.go:291-334 | So does a pod: containers, init containers, volumes, secrets and optional values each in their own place |
| PodSpecs.OverwritingKeepsTheFields | api/v1alpha11/nnfcontainerprofile_types.go:377-410 | So does reading a pod into any receiver, which keeps of its own only optional values the input lacks |
| PodSpecs.UsedContainer | api/v1alpha11/nnfcontainerprofile_types.go:413-446 | A used container keeps of its own only the optional values the input lacks |
| PodSpecs.ConvertPodSpec | api/v1alpha10/zz_generated.conversion.go:2666-2697 | Same value, shared arrays |
| PodSpecs.ViewsMean | api/v1alpha11/nnfcontainerprofile_types.go:291-410 | What the contracts say of a pod and of its Kubernetes form they say of every field and every element |
| PodSpecsV10.CommutingSquare | api/v1alpha10/nnfcontainerprofile_types.go:284-367 | Translating a v1alpha10 pod by its own version, and converting it and translating it by the hub version, give Kubernetes the same, in separate arrays although the two pods share theirs |
| PodSpecsV10.CommutingSquareDown | api/v1alpha10/nnfcontainerprofile_types.go:284-367 | The same from a hub pod down to v1alpha10 |
| PodSpecsV10.ToCorePodSpec | api/v1alpha10/nnfcontainerprofile_types.go:284-327 | The v1alpha10 translation gives the same meaning, in arrays of its own |
| PodSpecsV10.ToCoreContainer | api/v1alpha10/nnfcontainerprofile_types.go:330-367 | One container to Kubernetes, the v1alpha10 copy |
| PodSpecsV10.FromCorePodSpec | api/v1alpha10/nnfcontainerprofile_types.go:370-403 | The v1alpha10 reader: the input over what the receiver held, in arrays of its own |
| PodSpecsV10.FromCoreContainer | api/v1alpha10/nnfcontainerprofile_types.go:406-439 | One container from Kubernetes, the v1alpha10 copy |
| PodSpecsV10.ReadByBoth | api/v1alpha10/nnfcontainerprofile_types.go:370-439 | What v1alpha10 reads and then converts is what the hub reads |
| PodSpecs.WriteThrough | api/v1alpha10/zz_generated.conversion.go:2666-2680 | A container later stored through the source shows in the converted pod and not in its Kubernetes form |
| PodSpecs.RoundTrip | api/v1alpha11/nnfcontainerprofile_types.go:291-446 | Into a fresh receiver the round trip gives every field back in its own place, nil lists made empty |
| PodSpecs.RoundTripTwice | api/v1alpha11/nnfcontainerprofile_types.go:291-446 | Repeating it is exactly idempotent |
| PodSpecs.SameMeaningIff | api/v1alpha11/nnfcontainerprofile_types.go:291-334 | Two pods mean the same to Kubernetes exactly if they differ at most in nil against empty |
| PodSpecs.UsedReceiver | api/v1alpha11/nnfcontainerprofile_types.go:382-409 | A used receiver gives the same result as a fresh one exactly if it holds no optional value the input lacks; its containers never matter |
| PodSpecs.CoreRoundTrip | api/v1alpha11/nnfcontainerprofile_types.go:291-446 | From Kubernetes and back loses only the fields the type does not have, in containers and init containers alike |
| ECDataCopies.NnfNodeECDataStatus.DeepCopyInto | api/v1alpha10/zz_generated.deepcopy.go:1221-1241 | Same content with nil maps at both levels preserved, only new maps, none of them shared between keys; copying a status into itself empties it |
| ECDataCopies.CopyRows | api/v1alpha10/zz_generated.deepcopy.go:1226-1239 | The outer loop, in any key order |
| ECDataCopies.CopyEntries | api/v1alpha10/zz_generated.deepcopy.go:1233-1236 | The inner loop, in any key order |
| ECDataCopies.ViewMeans | api/v1alpha10/zz_generated.deepcopy.go:1221-1241 | What the contracts say of a table they say of every key, of nil rows and of every entry |
| ECDataCopies.TakeTurns | api/v1alpha10/zz_generated.deepcopy.go:1221-1241 | Two tables without a common cell: however their holders take turns writing, each has exactly the writes made through it |
| ECDataCopies.DeepCopyIsolates | api/v1alpha10/zz_generated.deepcopy.go:1221-1241 | The same for an original and its deep copy; the copy even if keys of the original share an inner map |
| ECDataCopies.ConversionShares | api/v1alpha10/zz_generated.conversion.go:2420-2433 | After a generated conversion both holders see every write |
| ECDataCopies.SharingShows | api/v1alpha10/zz_generated.conversion.go:2420-2433 | A store by the other holder into an inner map makes sharing differ from copying exactly if it changes the entry |
| ECDataCopies.AloneNothingDiffers | api/v1alpha10/zz_generated.conversion.go:2420-2433 | Shared and copied tables agree for a holder as long as only that holder writes, and a copy is untouched by writes through the other |
| BlockStorageCopies.DeepCopyStatus | api/v1alpha10/zz_generated.deepcopy.go:1123-1134 | Equal allocations at equal positions, nil preserved, every array, map and error cell new, none shared by two allocations |
| BlockStorageCopies.DeepCopyAllocation | api/v1alpha10/zz_generated.deepcopy.go:1027-1041 | Equal value, nil preserved, new cells only |
| BlockStorageCopies.CopyAccesses | api/v1alpha10/zz_generated.deepcopy.go:1029-1035 | The map of structs that hold slices, in any key order |
| BlockStorageCopies.CopyAllocations | api/v1alpha10/zz_generated.deepcopy.go:1125-1131 | The loop over the slice of structs |
| BlockStorageCopies.DeepCopyAccess | api/v1alpha10/zz_generated.deepcopy.go:987-994 | One access entry with a path array of its own |
| BlockStorageCopies.CopySlice | api/v1alpha10/zz_generated.deepcopy.go:1036-1040 | Make and copy: same elements, nil for nil |
| BlockStorageCopies.ViewMeans | api/v1alpha10/zz_generated.deepcopy.go:1027-1041 | What the contracts say of an allocation they say of every field, every device and every access with its paths |
| BlockStorageCopies.CopyKeepsConversionFollows | api/v1alpha10/zz_generated.conversion.go:2228-2247 | After a write to a device through the original the deep copy holds the old value and the converted allocation the new one |
| BlockStorageSharing.Apply | api/v1alpha10/zz_generated.deepcopy.go:1027-1041 | One later write through a reference of an allocation, to a device, a path or the access map, and its exact effect |
| BlockStorageSharing.WriteAt | api/v1alpha10/zz_generated.deepcopy.go:1123-1131 | The same, or a store into the slice: a field, new devices, a new or nil map, or another allocation |
| BlockStorageSharing.Act | api/v1alpha10/zz_generated.deepcopy.go:1123-1134 | The same, or a new error text, in a whole status |
| BlockStorageSharing.TakeTurns | api/v1alpha10/zz_generated.deepcopy.go:1123-1134 | Two statuses without a common cell: however their holders take turns writing to anything they reach, each contains exactly the writes made through it |
| BlockStorageSharing.DeepCopyIsolates | api/v1alpha10/zz_generated.deepcopy.go:1123-1134 | The same for a status and its deep copy; the copy even if the original shares cells within itself |
| BlockStorageSharing.ConversionShares | api/v1alpha10/zz_generated.conversion.go:2322-2328 | After a generated conversion both holders contain every write to allocations, what they refer to, and the error |
| ProfileLists.ContainersToHub | api/v1alpha10/zz_generated.conversion.go:1394-1408 | Item by item, order, length and nil-ness kept, CreateContainer false |
| ProfileLists.ContainersFromHub | api/v1alpha10/zz_generated.conversion.go:1415-1429 | Item by item, order, length and nil-ness kept |
| ProfileLists.StoragesToHub | api/v1alpha10/zz_generated.conversion.go:3451-3465 | Item by item, order, length and nil-ness kept, hub-only lists nil |
| ProfileLists.StoragesFromHub | api/v1alpha10/zz_generated.conversion.go:3472-3486 | Item by item, order, length and nil-ness kept |
| ProfileLists.ListsComeBack | api/v1alpha10/zz_generated.conversion.go:1394-1429 | Spoke lists of any length come back exactly from the hub |
| ProfileLists.ContainerHubListsAreReset | api/v1alpha10/zz_generated.conversion.go:1394-1429 | Hub lists come back with CreateContainer false and nothing else changed |
| ProfileLists.StorageHubListsAreReset | api/v1alpha10/zz_generated.conversion.go:3451-3486 | Hub lists come back with the PostTeardown lists nil and nothing else changed |
| ProfileLists.ContainerHubListsComeBackIff | api/v1alpha10/zz_generated.conversion.go:1394-1429 | Hub lists come back unchanged exactly if no item creates containers |
| ProfileLists.StorageHubListsComeBackIff | api/v1alpha10/zz_generated.conversion.go:3451-3486 | Hub lists come back unchanged exactly if no item has a PostTeardown list |
| ProfileLists.ListsIgnoreTheStash | api/v1alpha10/conversion.go:75-85 | An item converts in a list as it does as an object exactly if its stash sets no hub-only field, and for containers exactly if there is a stash and it says false |
| ResourceStatus.UpdateIfWorseThan | api/v1alpha11/nnf_resource_status_type.go:88-100 | The stored status afterwards |
| ResourceStatus.Aggregate | api/v1alpha11/nnf_resource_status_type.go:88-100 | Reporting one after another is the fold |
| ResourceStatus.FoldMeans | api/v1alpha11/nnf_resource_status_type.go:88-100 | Failed iff the start or a report is; else a start other than Ready; else the first degraded report; else Ready |
| ResourceStatus.FoldRank | api/v1alpha11/nnf_resource_status_type.go:88-100 | The rank of the result is the worst rank |
| ResourceStatus.RankIgnoresOrder | api/v1alpha11/nnf_resource_status_type.go:88-100 | The rank depends only on which reports occur and never falls below the start |
| ResourceStatus.StateDependsOnOrder | api/v1alpha11/nnf_resource_status_type.go:88-100 | Between two degraded reports the state depends on the order exactly if they differ |
| ResourceStatus.DWSKnowsGradedStates | api/v1alpha11/nnf_resource_status_type.go:102-121 | Exactly the states aggregation works with have a DWS counterpart, each its own |
| ResourceStatus.GradedKeepTheirText | api/v1alpha11/nnf_resource_status_type.go:102-121 | Each of them under its own text |
| ResourceStatus.SwordfishStateAtDWS | api/v1alpha11/nnf_resource_status_type.go:102-158 | What DWS is told of each Swordfish state |
| ResourceStatus.AggregateAtDWS | api/v1alpha11/nnf_resource_status_type.go:88-158 | DWS reads Ready exactly if every Swordfish state is Enabled, and Failed exactly if some state is none of the five known ones |
| ResourceStatus.AggregateIsKnownToDWS | api/v1alpha11/nnf_resource_status_type.go:142-158 | Aggregating translated Swordfish states from Ready never gives DWS Unknown, and gives Ready exactly if all are Enabled |
| ResourceStatus.StaticReturnsIffNotFailed | api/v1alpha11/nnf_resource_status_type.go:124-139 | The panicking translation returns exactly where the other is not Failed, and the same |
| ResourceStatus.UpdateHealthIfWorseThan | api/v1alpha11/nnf_resource_health_type.go:56-68 | The stored health afterwards |
| ResourceStatus.AggregateHealth | api/v1alpha11/nnf_resource_health_type.go:56-68 | Reporting one after another is the fold |
| ResourceStatus.HealthIsMaximum | api/v1alpha11/nnf_resource_health_type.go:56-68 | The fold is the maximum of start and reports |
| ResourceStatus.HealthIgnoresOrder | api/v1alpha11/nnf_resource_health_type.go:56-68 | Reordering and repeating reports changes nothing |
| ResourceStatus.HealthInBatches | api/v1alpha11/nnf_resource_health_type.go:56-68 | Aggregating in two batches, split anywhere, gives the same |
| ResourceStatus.SwordfishHealthsAggregate | api/v1alpha11/nnf_resource_health_type.go:41-52 | Aggregated from OK, Swordfish healths give OK exactly if all are OK and Critical exactly if one is |
| PortIterators.PortIterator.constructor | vendor/github.com/DataWorkflowServices/dws/utils/ports/ports.go:97-103 | A new iterator has the whole enumeration before it |
| PortIterators.PortIterator.Next | vendor/github.com/DataWorkflowServices/dws/utils/ports/ports.go:112-148 | Hands out the enumeration one port at a time and then zero, at a broken entry too |
| PortIterators.Validate | vendor/github.com/DataWorkflowServices/dws/utils/ports/ports.go:34-89 | Accepts a list exactly if every entry is a port or an ascending range of ports, as Atoi reads its numbers |
| PortTexts.ParsersAgreeIff | vendor/github.com/DataWorkflowServices/dws/utils/ports/ports.go:48-136 | For numbers that can be ports the parser of validation and that of the iterator differ exactly over a leading plus sign |
| PortTexts.HalvesMean | vendor/github.com/DataWorkflowServices/dws/utils/ports/ports.go:49 | Splitting at the first dash loses nothing and fails exactly if there is no dash |
| PortTexts.DecimalReads | vendor/github.com/DataWorkflowServices/dws/utils/ports/ports.go:54-136 | The text of every number reads as that number |
| PortTexts.LeadingZero | vendor/github.com/DataWorkflowServices/dws/utils/ports/ports.go:54-136 | Leading zeros change nothing |
| PortTexts.ParsersReadNumbers | vendor/github.com/DataWorkflowServices/dws/utils/ports/ports.go:54-136 | Both parsers read the text of every number as that number up to their limits; only Atoi takes a sign |
| PortTexts.OnlyDigitsAreRead | vendor/github.com/DataWorkflowServices/dws/utils/ports/ports.go:54-136 | Neither parser reads anything but digits, behind at most one sign |
| PortTexts.HalvesOfRange | vendor/github.com/DataWorkflowServices/dws/utils/ports/ports.go:49 | The halves of a written range are the two written numbers |
| PortRanges.RangeIsValidIff | vendor/github.com/DataWorkflowServices/dws/utils/ports/ports.go:46-83 | A written range is valid exactly if it ascends between 1 and 65535 |
| PortRanges.PortIsValidIff | vendor/github.com/DataWorkflowServices/dws/utils/ports/ports.go:39-45 | A port is valid exactly between 1 and 65535 |
| PortRanges.PortEnumerated | vendor/github.com/DataWorkflowServices/dws/utils/ports/ports.go:117-122 | A port is handed out once, before everything later |
| PortRanges.RangeEnumerated | vendor/github.com/DataWorkflowServices/dws/utils/ports/ports.go:124-147 | A written range is handed out as its ports in ascending order, both ends included, before everything later |
| PortRanges.BackwardRangeRunsOut | vendor/github.com/DataWorkflowServices/dws/utils/ports/ports.go:139-147 | A range the wrong way round, which validation rejects, hands out every port from its start up and nothing later |
| PortIterators.SeenAsDeclaredIff | vendor/github.com/DataWorkflowServices/dws/utils/ports/ports.go:112-148 | The iterator reads a validated entry as validation does exactly if it is unsigned, and a signed one not at all |
| PortIterators.ReadIffUnsigned | vendor/github.com/DataWorkflowServices/dws/utils/ports/ports.go:112-148 | What the iterator reads as a port or an ascending range is exactly what validation accepts without a sign, with the same numbers |
| PortIterators.EnumeratesExactlyTheCoveredPorts | vendor/github.com/DataWorkflowServices/dws/utils/ports/ports.go:112-148 | Under a validated configuration the iterator yields exactly the ports of the entries before the first signed range |
| PortIterators.HandsOutAllIffUnsigned | vendor/github.com/DataWorkflowServices/dws/utils/ports/ports.go:112-148 | It yields everything the validated entries declare exactly if no range carries a plus sign |
| PortIterators.CoversAllIffUnsigned | vendor/github.com/DataWorkflowServices/dws/utils/ports/ports.go:112-148 | Where validated entries do not overlap, each of their ports is yielded exactly if no range carries a plus sign |
| PortIterators.SignHidesTheRest | vendor/github.com/DataWorkflowServices/dws/utils/ports/ports.go:129-137 | A plus sign in front of any valid range changes nothing for validation and ends the iteration there |
| PortIterators.AcceptedAndEmpty | vendor/github.com/DataWorkflowServices/dws/utils/ports/ports.go:54-136 | A concrete configuration that validation accepts and that yields no port |
| PortIterators.DistinctIffNoOverlap | vendor/github.com/DataWorkflowServices/dws/utils/ports/ports.go:86 | Under a validated configuration every port comes once exactly if no two of the entries reached overlap, which validation does not check |
| PortManagers.PortManager.IsAllocationNeeded | internal/controller/nnf_port_manager_controller.go:161-177 | Whether an allocation in use or short of resources is still asked for |
| PortManagers.PortManager.MarkUnusedAllocations | internal/controller/nnf_port_manager_controller.go:184-209 | First pass of the cleanup: cooldowns begun in place, positions to remove in order |
| PortManagers.PortManager.RemoveAllocations | internal/controller/nnf_port_manager_controller.go:211-214 | Second pass: the listed positions deleted from the back |
| PortManagers.PortManager.CleanupUnusedAllocations | internal/controller/nnf_port_manager_controller.go:179-215 | Both passes together are a filter over the list |
| PortManagers.MarkedThenRemoved | internal/controller/nnf_port_manager_controller.go:184-214 | Why: deleting the listed positions from the back leaves every other one in place and in order |
| PortManagers.PortManager.FindAllocationStatus | internal/controller/nnf_port_manager_controller.go:217-230 | The first allocation of the requester |
| PortManagers.FindFrom | internal/controller/nnf_port_manager_controller.go:217-230 | First in the list, none if absent |
| PortManagers.PortManager.ScanConfiguration | internal/controller/nnf_port_manager_controller.go:262-275 | A prefix of the unheld configured ports, all of them if there are too few |
| PortManagers.PortManager.ClaimPortsFromFreeAllocation | internal/controller/nnf_port_manager_controller.go:292-311 | Takes the first free allocation out of the list and adds its ports |
| PortManagers.PortManager.FindFreePorts | internal/controller/nnf_port_manager_controller.go:239-324 | Ports, outcome and remaining list |
| PortClaims.ClaimMeans | internal/controller/nnf_port_manager_controller.go:290-323 | For any list, a claim succeeds exactly if configured and free ports suffice, takes the first of them in order, and leaves every allocation that is not free |
| PortClaims.UnusedMeans | internal/controller/nnf_port_manager_controller.go:262-275 | The configured ports nobody holds, in the order of the configuration |
| PortManagers.PortManager.Allocate | internal/controller/nnf_port_manager_controller.go:101-146 | One request: kept, served, refused or short, written to its own entry |
| PortManagers.PortManager.AllocateRequests | internal/controller/nnf_port_manager_controller.go:101-146 | All requests in order, and how many went unserved |
| PortManagers.PortManager.Reconcile | internal/controller/nnf_port_manager_controller.go:64-157 | New allocation list, status and requeue decision as functions of what the reconcile found |
| PortManagerRuns.ReconcileKeepsInv | internal/controller/nnf_port_manager_controller.go:64-157 | Every reconcile keeps requesters unique and the ports of different allocations apart |
| PortManagerRuns.NoPortHasTwoOwners | internal/controller/nnf_port_manager_controller.go:64-157 | Safety of every run from an empty status, however requests, configuration and clock change: no port under two allocations |
| PortManagerRuns.CoolingIsTimedInEveryRun | internal/controller/nnf_port_manager_controller.go:196-197 | The dereferenced release time is always there; the free list is always empty, so claiming from it never happens |
| PortManagerRuns.LookupReconciled | internal/controller/nnf_port_manager_controller.go:97-146 | One reconcile as a single requester sees it |
| PortManagerRuns.PortsInUseAreStable | internal/controller/nnf_port_manager_controller.go:106-110 | A requester that keeps asking keeps the very same ports |
| PortManagerRuns.CoolingSurvivesIff | internal/controller/nnf_port_manager_controller.go:86-97 | A cooldown continues through a reconcile exactly if the configuration is found and sets one, it has not run out, and nobody asks again under that name, or if reading the configuration fails |
| PortManagerRuns.CoolingEndsIff | internal/controller/nnf_port_manager_controller.go:189-202 | Cooling ports are given up exactly if nobody asks again and the cooldown has run out or there is none, because it is zero or the configuration is missing |
| PortManagerRuns.InUseBecomes | internal/controller/nnf_port_manager_controller.go:188-207 | When ports in use begin to cool, when they are given up at once and when they stay, each exactly |
| PortManagerRuns.WaitingBecomes | internal/controller/nnf_port_manager_controller.go:161-207 | What becomes of a request waiting for ports: still made, its release time never changes; withdrawn, it cools, goes or stays exactly as ports in use would |
| PortManagerRuns.RefusedBecomes | internal/controller/nnf_port_manager_controller.go:161-207 | What becomes of a request turned down without a configuration: made again, it is stamped as released exactly if a cooldown is in force |
| PortManagerRuns.CoolingAskedAgain | internal/controller/nnf_port_manager_controller.go:161-207 | What becomes of cooling ports asked for again: their time is kept while the cooldown runs and forgotten after |
| PortManagerRuns.NewcomerBecomes | internal/controller/nnf_port_manager_controller.go:127-141 | A first request is answered and carries no release time |
| PortManagerRuns.WaitingIsNeverStamped | internal/controller/nnf_port_manager_controller.go:161-207 | In every run in which a requester asks all along and the configuration is never missing, it is never stamped as released |
| PortManagerRuns.WaitedServedAndFreed | internal/controller/nnf_port_manager_controller.go:161-207 | So after any wait, once served and withdrawn, its ports are free after a cooldown |
| PortManagerRuns.StaysThroughoutIff | internal/controller/nnf_port_manager_controller.go:64-157 | Over whole runs of any reconciles an allocation with ports stays the same at every moment exactly if each reconcile leaves it, and then nobody else has any of its ports |
| PortManagerRuns.FreedIffNeverReleased | internal/controller/nnf_port_manager_controller.go:142-145 | After a withdrawal and a full cooldown, with any reconciles in between, the ports are free exactly if the entry had never cooled before or a reconcile in between found no cooldown |
| PortManagerRuns.StaleReleaseTimeLeaksPorts | internal/controller/nnf_port_manager_controller.go:203-207 | Over any run, an entry in use with an old release time stays exactly until a reconcile finds it unasked for and no cooldown, because it is zero or the configuration is missing; until then nobody else gets its ports |
| PortManagerRuns.PortLostAfterMissingConfiguration | internal/controller/nnf_port_manager_controller.go:91-145 | A run that gets there: a request made while the system configuration is missing |
| PortManagerRuns.CooldownCutShort | internal/controller/nnf_port_manager_controller.go:101-146 | A run from an empty status that gives cooling ports to another requester because their last user asks again |
| PortManagerRuns.CooldownLostWithTheConfiguration | internal/controller/nnf_port_manager_controller.go:91-97 | A run from an empty status that gives a cooling port to another requester because the configuration was missing once |
| PortManagerRuns.RequeuesIffSomeRequestIsUnserved | internal/controller/nnf_port_manager_controller.go:148-154 | With unique requests, as documented, a delayed requeue is asked for exactly if some request holds no ports |
| PortManagerRuns.OutcomeMeans | internal/controller/nnf_port_manager_controller.go:85-156 | The outcome of every reconcile: failure, requeue at once, requeue one second after the cooldown, or done |
| PortManagerRuns.ServedIffEnoughUnheld | internal/controller/nnf_port_manager_controller.go:262-324 | With unique requests and a configuration, a request without ports gets the first enumerated ports nobody holds at its turn, and ends short of resources exactly if there are fewer than it asks for |
| PortManagerRuns.GrantsAreDistinctIffNoOverlap | internal/controller/nnf_port_manager_controller.go:262-280 | Under a validated configuration every grant consists of different ports exactly if no two of the entries reached overlap |
| PortManagerRuns.PortsBehindASignAreNeverGranted | internal/controller/nnf_port_manager_controller.go:262-280 | A validated port in or behind a signed range, and in no entry before it, is never granted |

## Left out

- Annotations.MarshalData: the annotation's text is modelled by whether and to what it decodes, not character by character; replacement of ill-formed UTF-8 and marshalling errors, which these types cannot cause, are not modelled.
- PortManagers.PortManager.Reconcile: each reconcile is one step with one clock reading and one read of the configuration; another writer in between is not modelled, release times are not rounded to whole seconds as storing them would, and a request's count is not negative.
- BlockStorageCopies.DeepCopyStatus: source and target are different variables, as in every use, because a Go pointer into a slice has no counterpart here; copying into itself is modelled for EC data only.
- The pod types of v1alpha10 and v1alpha11 are one class, because a conversion reinterprets the memory of one as the other; their translations are modelled separately.
- Slices and maps inside storage and container records are values: that generated conversions share them is modelled for pod specifications, annotation maps, EC data and block storage only. Optional pointers are values everywhere.
- A slice that is an array is its own array, without spare capacity.
- Records below the level at which the versions differ are one datatype, so their generated copies are a single assignment.
- The deep copies of storage-profile sections are the slice copy and the map copy modelled here, with nothing new in them.
- Container and data-movement conversion in v1alpha9 is the same as in v1alpha10; kinds with the same shape in every version would only add identities.
- ConvertTo and ConvertFrom of lists only report that they are not supported.
- Kubernetes values such as volumes, probes and environment entries are opaque: what each encodes to, and whether decoding gives the same value again. Pointers inside environment entries and mounts, which a pod and its Kubernetes form share because those lists are copied one level deep, are values.
- The old object that a container webhook compares with is taken to be the stored one, decoded at v1alpha11; if it had been converted to the requested version first, it would have lost the same distinctions.
- A status of block storage is one variable: assigning its slice header, start time or ready flag changes that variable only and is not among the writes.
- The namespace environment variables and the clock are parameters; panics are modelled as the absence of a result or, for a target name no caller passes, by a precondition.
- Number parsing is modelled for base ten, as the callers use it; the text of a cooldown or a count is a number already.
- The regular-expression library beyond the operators of the one pattern; none of its letters has a case variant outside ASCII, and characters outside ASCII are no word characters there either.
- Error texts, and which of several storage errors is reported first.
- The other reconcilers, the mount daemon and the programs that start them: long sequences of calls into clusters and devices.
- Kubernetes metadata semantics (resource versions, finalizers, immutable namespaces), schema markers and defaults.
