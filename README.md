# VersionOne publisher for CruiseControl.NET, modelled in Dafny

The VersionOne publisher is a CruiseControl.NET build plugin (an `ITask`). It records each finished
integration as a *build run* of a VersionOne *build project*. The run carries:

- a name made of the project name and the build label;
- a date and an elapsed time;
- a source ("Forced" / "Trigger") and a status ("Passed" / "Failed");
- a description listing the changes.

The publisher also attaches an optional "Build Report" link back to the
CruiseControl.NET dashboard. It then ties the run to the VersionOne changesets
of the integration's modifications. Every changeset is linked to the primary
work items named in the check-in comments, and each such work item is marked
as completed in the new run. Any earlier run of the same build project is
dropped from the work item's completions.

The project models that logic, from `VersionOnePublisher.cs`:

- `wrappers.dfy`: `Option` and `Result`. The `Result` carries a `Fault` for
  the exceptions the model covers: an unexpected work-item type, and a null
  build time or date property. Two further throws are excluded by taking change
  numbers and comments as non-null (see "## Left out").
- `text.dfy`: suffix and prefix tests, and character removal (`string.Replace(c, "")`).
- `changes.dfy`: `ResolveChanges`, which keeps the first modification of each
  change number in order of first appearance, and `GetModificationDescription`.
  Both are methods with loops, proved against the specification functions
  `Distinct` and `Description`.
- `outcome.dfy`: `DetermineStatus`, `DetermineSource`, the run name, the
  `Url` getter, `GetBuildDate` and `GetElapsed`.
- `buildurl.dfy`: `CreateBuildUrl`, piece by piece as the source joins it.
- `workitems.dfy`: `ResolveReference`, where a secondary work item resolves to
  its parent and any other type is an exception, and `DetermineWorkitems`.
- `store.dfy`: the part of VersionOne the publisher touches:
  - a value `State` of build projects, runs, links and changesets;
  - the three many-valued relations: the run's changesets, a changeset's
    primary work items, and a work item's completed-in runs;
  - the class `VersionOneStore`, whose methods change that state in place.
    Each method is specified by the `State` transition it makes.
- `publisher.dfy`: `SetChangeSets` and `Run` as imperative methods over a
  `VersionOneStore`. Each is proved equal to a specification function,
  `PublishChanges` or `Publish`, that gives both the new store and the outcome.
- `publisher_facts.dfy`: what `SetChangeSets` and `Run` promise, proved about
  those specification functions:
  - which change it stops on, and with what exception;
  - what it leaves alone;
  - that every work item of a processed change ends up completed in the new
    run and in no earlier run of the same build project;
  - that changesets are created only for unseen change numbers, and once each;
  - that every changeset of a processed change belongs to the run and holds
    that change's work items.

The `Url` getter appends `"//"` (two slashes) to a URL that does not end in
`/`; `Outcome.NormalizedUrl` does the same.

## Model

| member | source | states |
|---|---|---|
| Text.RemoveAll | VersionOnePublisher.cs:296-297 | the result holds no occurrence of the removed character |
| Text.RemoveAllCounts | VersionOnePublisher.cs:296-297 | every other character of the input is kept, with the same multiplicity |
| Text.RemoveAllAbsent | VersionOnePublisher.cs:296-297 | input without the character is returned unchanged |
| Text.RemoveAllAppend | VersionOnePublisher.cs:296-297 | removal from a concatenation is the concatenation of the removals; with `Text.RemoveAllSingle` (a single character is dropped exactly when it is the removed one) this fixes the result: the kept characters stay in their order |
| Text.RemoveAllSingle | VersionOnePublisher.cs:296-297 | a one-character string loses its character exactly when it is the removed one |
| Changes.ResolveChanges | VersionOnePublisher.cs:126-135 | the dictionary loop yields exactly `Distinct(mods)`, the first-seen change of each number in order of first appearance |
| Changes.FromModification | VersionOnePublisher.cs:143-148 | the ChangeInfo constructor copies each field from its counterpart: the number from ChangeNumber, the comment, the user from UserName, the stamp from ModifiedTime |
| Changes.DistinctCoversInput | VersionOnePublisher.cs:129-134 | the change numbers of the result are exactly the change numbers of the modifications |
| Changes.DistinctHasNoDuplicates | VersionOnePublisher.cs:130-131 | no two resolved changes share a change number |
| Changes.DistinctKeepsFirst | VersionOnePublisher.cs:130-131 | each resolved change is built from the first modification with its number (number, comment, user, time) |
| Changes.DistinctInFirstOrder | VersionOnePublisher.cs:127-134 | resolved changes appear in the order their numbers first appear among the modifications |
| Changes.DescriptionAppend | VersionOnePublisher.cs:245-251 | the description of two change lists in sequence is the concatenation of their descriptions |
| Changes.DescriptionSplit | VersionOnePublisher.cs:247-249 | each change contributes its own "user: comment<br>" line, at its position in the description |
| Changes.GetModificationDescription | VersionOnePublisher.cs:245-251 | the StringBuilder loop yields `Description(changes)`; the result is empty exactly when there are no changes |
| Outcome.DetermineStatus | VersionOnePublisher.cs:263-272 | "Passed" exactly for Success, "Failed" exactly for Failure, null exactly for the other three statuses |
| Outcome.DetermineSource | VersionOnePublisher.cs:274-283 | "Forced" exactly for ForceBuild, "Trigger" exactly for IfModificationExists, null exactly otherwise |
| Outcome.RunName | VersionOnePublisher.cs:106 | the run name starts with "<project> - ", ends with the label, and has exactly their combined length |
| Outcome.RunNameDeterminesLabel | VersionOnePublisher.cs:106 | for one project name, different labels give different run names |
| Outcome.NormalizedUrl | VersionOnePublisher.cs:20-25 | the getter's result extends the URL and ends with "/"; a URL already ending in "/" is returned as is, any other gets "//" appended |
| Outcome.NormalizedUrlIdempotent | VersionOnePublisher.cs:22 | applying the getter's normalization twice is the same as applying it once |
| Outcome.BuildDate | VersionOnePublisher.cs:253-255 | the end time, unless it is DateTime.MinValue, in which case the current time |
| Outcome.Elapsed | VersionOnePublisher.cs:257-261 | the elapsed milliseconds times 10000 ticks equal the end time, or the elapsed-time clock reading when the end time is unset, minus the start time; negative when that precedes the start |
| BuildUrl.ServerName | VersionOnePublisher.cs:307 | never empty: "local" for an unset or empty server name, the server name otherwise |
| BuildUrl.CreateBuildUrl | VersionOnePublisher.cs:285-315 | null exactly without a web root; with one, a null build time, then a null build date, raise NullReference; otherwise a URL is built |
| BuildUrl.LogFileName | VersionOnePublisher.cs:296-299 | the file segment is "log", the date without its dashes, the time without its colons, the label part ("Lbuild." and the label exactly for a successful build) and ".xml": it starts with the first three, ends with the last two, and its length is the sum of theirs |
| BuildUrl.BuildUrlSegments | VersionOnePublisher.cs:296-314 | the URL is the web root, the separator, "server/", the server name, "/project/", the build project, "/build/", the log file name and "/ViewBuildReport.aspx", joined in this order |
| BuildUrl.BuildUrlStart | VersionOnePublisher.cs:301-306 | the URL starts with the web root, followed by "server/" when the web root ends in "/" and by "/server/" otherwise: exactly one separator |
| BuildUrl.BuildUrlEnd | VersionOnePublisher.cs:310-314 | the URL ends with "/ViewBuildReport.aspx" |
| BuildUrl.LabelOnlyWhenSucceeded | VersionOnePublisher.cs:299 | two labels give the same URL exactly when the build did not succeed or the labels are equal |
| BuildUrl.BuildUrlNeverEmpty | VersionOnePublisher.cs:113-116 | a URL that is built is never empty, so the link is skipped only when there is no web root |
| Workitems.PrependTwice | VersionOnePublisher.cs:209 | adding two lists of results in turn is adding their concatenation; adding nothing changes nothing |
| Workitems.ResolveMeaning | VersionOnePublisher.cs:229-238 | resolution succeeds exactly when no found item is of another type; it then yields each item, or a secondary item's parent, in order; otherwise it fails naming the first such item's type |
| Workitems.ResolveReference | VersionOnePublisher.cs:222-243 | the loop over the search results computes `Resolve(found)` |
| Workitems.ResolveAllMeaning | VersionOnePublisher.cs:206-209 | over all matches, success exactly when no item found for any match has an unexpected type; the result then holds exactly the targets of the items found for every match |
| Workitems.ResolveAllFailure | VersionOnePublisher.cs:206-236 | when resolution fails, the exception names the type of the first item of an unexpected type, taking the matches in order and within a match the items the search found in order: no earlier match and no earlier item of that match has one |
| Workitems.DetermineWorkitems | VersionOnePublisher.cs:204-214 | the loop computes `WorkitemsOf`; without both the reference expression and the reference field, the result is empty |
| Store.FindBuildProject | VersionOnePublisher.cs:322-333 | the first active build project whose reference is the project name, or none when no such project exists |
| Store.FindChangeSets | VersionOnePublisher.cs:159-161 | exactly the changesets whose reference is the change number, in increasing order |
| Store.FindChangeSetsExtend | VersionOnePublisher.cs:159-165 | a changeset found before more are created is still found |
| Store.FindChangeSetsUnaffected | VersionOnePublisher.cs:159-165 | creating changesets with other references leaves the lookup unchanged |
| Store.Added | VersionOnePublisher.cs:192 | after Add, the relation holds exactly its old targets and the new one |
| Store.Removed | VersionOnePublisher.cs:189 | after Remove, the relation holds exactly its old targets other than the removed one |
| Store.OtherProjects | VersionOnePublisher.cs:181-190 | the completions left by the toRemove loops are exactly those of runs of other build projects |
| Store.OtherProjectsIdempotent | VersionOnePublisher.cs:181-190 | running the toRemove loops twice is running them once |
| Store.OtherProjectsAppend | VersionOnePublisher.cs:181-190 | the toRemove filter works entry by entry |
| Store.RelinkedShape | VersionOnePublisher.cs:181-192 | after relinking, the last completion is the new run, no earlier one belongs to its build project, and other projects' completions are kept |
| Store.RelinkedIdempotent | VersionOnePublisher.cs:181-192 | relinking a work item to the same run twice is relinking it once |
| Store.VersionOneStore.SaveRun | VersionOnePublisher.cs:106-112 | the saved run is appended with the next run id, and nothing else changes |
| Store.VersionOneStore.CreateLink | VersionOnePublisher.cs:115 | the link is appended, and nothing else changes |
| Store.VersionOneStore.CreateChangeSet | VersionOnePublisher.cs:165-166 | the changeset, with its name, reference and description, is appended with the next id, and nothing else changes |
| Store.VersionOneStore.AddRunChangeSet | VersionOnePublisher.cs:176 | the run's changesets gain the changeset, and nothing else changes |
| Store.VersionOneStore.AddPrimaryWorkitem | VersionOnePublisher.cs:178 | the changeset's primary work items gain the work item, and nothing else changes |
| Store.VersionOneStore.RemoveCompletion | VersionOnePublisher.cs:189 | the work item's completions lose the run, and nothing else changes |
| Store.VersionOneStore.AddCompletion | VersionOnePublisher.cs:192 | the work item's completions gain the run, and nothing else changes |
| Publisher.FoundOrCreated | VersionOnePublisher.cs:158-170 | existing changesets with the change number are used unchanged; without any, exactly one "user on stamp" changeset is created and used alone |
| Publisher.NewChangeSet | VersionOnePublisher.cs:164-166 | the created changeset is referenced by the change number and described by the change's comment |
| Publisher.NewChangeSetName | VersionOnePublisher.cs:164 | the changeset's name is "<user> on " followed by the rendered stamp: that prefix, that suffix, and nothing between them |
| Publisher.RemovedWithout | VersionOnePublisher.cs:188-190 | removing the listed runs one by one leaves the completions not listed, in order |
| Publisher.WithoutIsOtherProjects | VersionOnePublisher.cs:181-190 | removing exactly the runs of the build project leaves the other projects' completions |
| Publisher.StaleCompletions | VersionOnePublisher.cs:181-186 | toRemove holds exactly the work item's completions whose run belongs to the run's build project |
| Publisher.RemoveEach | VersionOnePublisher.cs:188-190 | after the loop the work item's completions are the old ones without the listed runs |
| Publisher.ReplaceCompletions | VersionOnePublisher.cs:181-192 | the work item's completions become the other projects' runs followed by the new run |
| Publisher.LinkWorkitemsTo | VersionOnePublisher.cs:177-194 | the loop over work items makes the store `LinkWorkitems` of the old store |
| Publisher.AttachChangeSetsTo | VersionOnePublisher.cs:175-195 | the loop over changesets makes the store `AttachChangeSets` of the old store |
| Publisher.SetChangeSets | VersionOnePublisher.cs:156-197 | the store and the outcome afterwards are those of `PublishChanges`, the stop on an exception included |
| Publisher.Run | VersionOnePublisher.cs:102-119 | the store and the outcome afterwards are those of `Publish` |
| Publisher.NewRun | VersionOnePublisher.cs:106-111 | the run saved for a result: the build project found for it, the name "<project> - <label>", which ends with the run's reference (the label), the build date and elapsed time, the source and status mapped from the result, and the changes' description, empty exactly when there are no changes |
| PublisherFacts.Processed | VersionOnePublisher.cs:157-172 | the number of changes handled before the first whose work items cannot be determined |
| PublisherFacts.PublishOutcome | VersionOnePublisher.cs:156-197 | SetChangeSets completes exactly when every change's work items are determined, and otherwise fails with the first failure's exception |
| PublisherFacts.PublishKeepsRecords | VersionOnePublisher.cs:156-197 | SetChangeSets leaves build projects, build runs and links unchanged |
| PublisherFacts.PublishExtends | VersionOnePublisher.cs:158-170 | SetChangeSets keeps the existing changesets in place and only appends |
| PublisherFacts.Linked | VersionOnePublisher.cs:172-178 | the work items linked are exactly those of the changes processed |
| PublisherFacts.PublishRelinks | VersionOnePublisher.cs:177-194 | exactly the linked work items are relinked: completed in the run, in no other run of its build project, other projects kept; other work items are untouched |
| PublisherFacts.PublishReaches | VersionOnePublisher.cs:158-170 | every change reached, the failing one included, has a changeset afterwards |
| PublisherFacts.PublishCreatesOnlyFor | VersionOnePublisher.cs:162-168 | each new changeset was created for a reached change whose number had no changeset before |
| PublisherFacts.PublishCreatesOnce | VersionOnePublisher.cs:162-168 | no two new changesets share a reference |
| PublisherFacts.PublishGrows | VersionOnePublisher.cs:175-178 | the run's changesets and the changesets' work items only gain entries |
| PublisherFacts.PublishAddsOnly | VersionOnePublisher.cs:156-195 | SetChangeSets adds nothing else: every other run keeps its changesets exactly; the run gains only changesets whose reference is the number of a change it got through, never the changeset of the change it stops on (created at 162-168, abandoned by the throw at 172); a changeset gains only work items of such a change with its number |
| PublisherFacts.PublishAssociates | VersionOnePublisher.cs:156-195 | with distinct change numbers, every changeset of a processed change belongs to the run and holds all of that change's work items |
| PublisherFacts.RunRecords | VersionOnePublisher.cs:102-116 | without an active build project nothing changes; with one, exactly one run is saved, and the report link is added exactly when the web root, build time and build date are present |
| PublisherFacts.RunOutcome | VersionOnePublisher.cs:113-117 | Run fails with the URL's exception when it cannot be built; otherwise it succeeds exactly when SetChangeSets gets through every change |
| PublisherFacts.RunLinksWorkitems | VersionOnePublisher.cs:102-119 | after Run, the work items of processed changes are relinked to the new run, their changesets belong to it and hold them, and every reached change has a changeset |

## Left out

- The VersionOne client (`Instance`, `CreateV1Instance`, `GetProxy`, `Validate`, lines 81-100) is left out. Authentication, proxies and connection checks are outside the model; a `VersionOneStore` stands in for the server.
- The configuration surface of the reflector attributes (lines 16-79) is left out, apart from the `Url` getter. The settings the core reads form the `Config` value.
- The regular-expression engine is a parameter, `Services.matches`; the model does not implement .NET regular expressions. `Services.matches` is total, so the ArgumentException that `new Regex` raises for an invalid reference expression (line 207) is not modelled.
- The work-item search is a parameter, `Services.search`, because its matching is done by the server.
- Formatting a DateTime as text is a parameter, `Services.showTime`, because the format depends on culture settings.
- `DateTime.Now` is left out as a clock. The two readings in `GetBuildDate` and `GetElapsed` are the parameters `dateNow` and `elapsedNow`, and may differ as in the source.
- Outcome.Elapsed: computes the exact real number of milliseconds, not the `double` that `TotalMilliseconds` rounds to.
- Outcome.NormalizedUrl: the null-URL case is not modelled (the getter would raise NullReference).
- `Trace` (lines 335-337) writes diagnostics only and is left out.
- Concurrency is left out. So are interference from other VersionOne clients between the lookup and the creation of a changeset, and network or server failures.
- The order of `Dictionary.Values` is taken to be the order of insertion. The model assumes this for a dictionary that only ever gains entries.
- The many-valued VersionOne relations are modelled as duplicate-free lists: `Add` appends only a missing target, and `Remove` drops the target.
- Store.VersionOneStore.SaveRun: covers `CreateBuildRun`, the field assignments and `Save` (lines 106-112) as one step, because nothing reads the run between its creation and `Save`. The model takes every change to the store to take effect when it is made.
- Store.VersionOneStore.CreateChangeSet: assumes that the created changeset, together with the description set at line 166, reaches the store without a `Save` call. The source calls `Save` only on the run (line 112). The relation edits at lines 176, 178, 189 and 192 are likewise taken to take effect without one. If a created object is stored only on `Save`, the source leaves the changeset without its description; `Publisher.NewChangeSet`, and `PublisherFacts.PublishCreatesOnlyFor` through it, describe the changeset with the comment as its description.
- A work item's completed-in entry carries the id of its run's build project. This stands for the comparison `otherRun.BuildProject == run.BuildProject`.
- The exceptions the model covers are values of `Fault`: the unexpected work-item type, and a null build time or date property. They end `Run` as an `Err` outcome, and whatever the store held at that point stays in it. A missing project or label property joins as the empty string, as .NET does with null strings.
- Change numbers and comments are taken to be non-null strings. In the source, a null change number makes `ContainsKey` throw ArgumentNullException (line 130) before any run is saved. A null comment makes `Regex.Matches` throw when matching is configured (line 208). Neither throw is modelled.
- `Text.EndsWith` compares characters ordinally. The source calls the culture-sensitive `String.EndsWith(string)` (lines 22 and 303), which ignores characters such as the soft hyphen (U+00AD). For a URL or web root ending in `/` followed by such characters, the source adds no separator where the model does, in `Outcome.NormalizedUrl` and `BuildUrl.CreateBuildUrl` alike.
