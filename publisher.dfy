/** The publisher itself: Run, which records a finished CCNet integration
    as a VersionOne build run, and SetChangeSets, which ties the run to the
    changesets of its changes and the work items their comments name. */
module Publisher {
  import opened Wrappers
  import opened Changes
  import opened Outcome
  import opened BuildUrl
  import opened Workitems
  import opened Store
  import opened Text

  /** The publisher's configuration as the publisher reads it; null settings are None. */
  datatype Config = Config(
    webRoot: Option<string>, buildServer: Option<string>,
    referenceExpression: Option<string>, referenceField: Option<string>)

  /** What the publisher consults but does not compute: the regular-expression
      engine (the values of the matches of a pattern in a text), the VersionOne
      work-item search (the items whose given field matches a search string),
      and the rendering of a DateTime as text. */
  datatype Services = Services(
    matches: (string, string) -> seq<string>,
    search: (string, string) -> seq<Workitem>,
    showTime: int -> string)

  /** The parts of IIntegrationResult the publisher reads; times are in ticks. */
  datatype IntegrationResult = IntegrationResult(
    projectName: string, buildLabel: string, startTime: int, endTime: int,
    status: IntegrationStatus, condition: BuildCondition,
    modifications: seq<Modification>, properties: map<string, string>)

  /** The store after a publishing step, and whether the step completed or
      stopped on an exception. */
  datatype Published = Published(state: State, outcome: Result<()>)

  /** DetermineWorkitems for one change, under the publisher's configuration. */
  function WorkitemsFor(config: Config, services: Services, c: ChangeInfo): Result<seq<WorkitemId>> {
    WorkitemsOf(config.referenceExpression, config.referenceField, c.comment, services.matches, services.search)
  }

  /** The changeset created for a change nobody has recorded yet: named
      "<user> on <stamp>", referenced by the change number, described by the comment. */
  function NewChangeSet(c: ChangeInfo, showTime: int -> string): (r: ChangeSet)
    ensures r.reference == c.number && r.description == c.comment
  {
    ChangeSet(c.user + " on " + showTime(c.stamp), c.number, c.comment)
  }

  /** The new changeset's name starts with the user and ends with the rendered stamp. */
  lemma NewChangeSetName(c: ChangeInfo, showTime: int -> string)
    ensures StartsWith(NewChangeSet(c, showTime).name, c.user + " on ")
    ensures EndsWith(NewChangeSet(c, showTime).name, showTime(c.stamp))
    ensures |NewChangeSet(c, showTime).name| == |c.user| + 4 + |showTime(c.stamp)|
  {
    EndsWithAppended(c.user + " on ", showTime(c.stamp));
  }

  /** The find-or-create step of SetChangeSets: the changesets already carrying
      the change number, or else one new changeset created for it. */
  function FoundOrCreated(s: State, c: ChangeInfo, showTime: int -> string): (r: (State, seq<ChangeSetId>))
    ensures r.1 != [] && r.1 == FindChangeSets(r.0.changeSets, c.number)
    ensures FindChangeSets(s.changeSets, c.number) != [] ==> r.0 == s
    ensures FindChangeSets(s.changeSets, c.number) == [] ==>
              r.0.changeSets == s.changeSets + [NewChangeSet(c, showTime)] && r.1 == [|s.changeSets|]
    ensures r.0 == s.(changeSets := r.0.changeSets)
  {
    var found := FindChangeSets(s.changeSets, c.number);
    if found == [] then
      var t := WithChangeSet(s, NewChangeSet(c, showTime));
      assert t.changeSets[..|s.changeSets|] == s.changeSets;
      assert FindChangeSets(t.changeSets, c.number) == [] + [|s.changeSets|];
      (t, [|s.changeSets|])
    else (s, found)
  }

  /** The work item's CompletedIn after the toRemove loops and the Add. */
  function Relink(s: State, w: WorkitemId, run: RunId, project: ProjectId): State {
    WithCompletedIn(s, w, Relinked(CompletedIn(s, w), run, project))
  }

  /** The innermost loop for one changeset: each work item becomes one of the
      changeset's primary work items and is relinked to the run. */
  function LinkWorkitems(s: State, run: RunId, project: ProjectId, id: ChangeSetId, ws: seq<WorkitemId>): State
    decreases |ws|
  {
    if ws == [] then s
    else LinkWorkitems(Relink(WithPrimaryWorkitem(s, id, ws[0]), ws[0], run, project), run, project, id, ws[1..])
  }

  /** The loop over a change's changesets: each is added to the run's
      changesets, then linked to every work item. */
  function AttachChangeSets(s: State, run: RunId, project: ProjectId, ids: seq<ChangeSetId>, ws: seq<WorkitemId>): State
    decreases |ids|
  {
    if ids == [] then s
    else AttachChangeSets(LinkWorkitems(WithRunChangeSet(s, run, ids[0]), run, project, ids[0], ws), run, project, ids[1..], ws)
  }

  /** SetChangeSets over the whole change list. An exception from
      DetermineWorkitems ends it, after that change's find-or-create. */
  function PublishChanges(s: State, run: RunId, project: ProjectId, changes: seq<ChangeInfo>,
                          config: Config, services: Services): Published
    decreases |changes|
  {
    if changes == [] then Published(s, Ok(()))
    else
      var step := FoundOrCreated(s, changes[0], services.showTime);
      match WorkitemsFor(config, services, changes[0])
      case Err(f) => Published(step.0, Err(f))
      case Ok(ws) => PublishChanges(AttachChangeSets(step.0, run, project, step.1, ws), run, project, changes[1..], config, services)
  }

  /** The build run Run saves for a result of the given build project. */
  function NewRun(project: ProjectId, result: IntegrationResult, changes: seq<ChangeInfo>, dateNow: int, elapsedNow: int)
    : (r: BuildRun)
    ensures r.project == project && r.reference == result.buildLabel
    ensures r.name == RunName(result.projectName, result.buildLabel)
    ensures StartsWith(r.name, result.projectName + " - ") && EndsWith(r.name, r.reference)
    ensures r.date == BuildDate(result.endTime, dateNow)
    ensures r.elapsed == Elapsed(result.startTime, result.endTime, elapsedNow)
    ensures r.source == DetermineSource(result.condition) && r.status == DetermineStatus(result.status)
    ensures r.description == Description(changes)
    ensures r.description == "" <==> changes == []
  {
    BuildRun(project, RunName(result.projectName, result.buildLabel), BuildDate(result.endTime, dateNow),
             Elapsed(result.startTime, result.endTime, elapsedNow), result.buildLabel,
             DetermineSource(result.condition), DetermineStatus(result.status), Description(changes))
  }

  /** Run: nothing without an active build project of the result's name;
      otherwise the run is saved, the report link attached when there is a
      URL, and the changes published. dateNow and elapsedNow are the two
      readings of the clock. */
  ghost function Publish(s: State, config: Config, result: IntegrationResult, services: Services,
                         dateNow: int, elapsedNow: int): Published
  {
    match FindBuildProject(s.projects, result.projectName)
    case None => Published(s, Ok(()))
    case Some(project) =>
      var changes := Distinct(result.modifications);
      var saved := WithRun(s, NewRun(project, result, changes, dateNow, elapsedNow));
      var run := |s.runs|;
      match CreateBuildUrl(config.webRoot, config.buildServer, result.properties, Succeeded(result.status))
      case Err(f) => Published(saved, Err(f))
      case Ok(url) =>
        var linked := if url.Some? && url.value != "" then WithLink(saved, Link(run, "Build Report", url.value, true)) else saved;
        PublishChanges(linked, run, project, changes, config, services)
  }

  /** The entries of s whose value is not among xs, in order. */
  function Without(s: seq<Completion>, xs: seq<Completion>): seq<Completion> {
    if s == [] then []
    else (if s[0] in xs then [] else [s[0]]) + Without(s[1..], xs)
  }

  lemma {:induction false} RemovedWithout(s: seq<Completion>, xs: seq<Completion>, y: Completion)
    ensures Removed(Without(s, xs), y) == Without(s, xs + [y])
  {
    if s != [] {
      RemovedWithout(s[1..], xs, y);
      var rest := Without(s[1..], xs);
      if s[0] in xs {
        assert Without(s, xs) == rest;
      } else {
        var w := Without(s, xs);
        assert w == [s[0]] + rest;
        assert w[0] == s[0] && w[1..] == rest;
      }
    }
  }

  lemma {:induction false} WithoutNone(s: seq<Completion>)
    ensures Without(s, []) == s
  {
    if s != [] {
      WithoutNone(s[1..]);
      assert s == [s[0]] + s[1..];
    }
  }

  lemma {:induction false} WithoutIsOtherProjects(s: seq<Completion>, xs: seq<Completion>, project: ProjectId)
    requires forall c :: c in s ==> (c in xs <==> c.project == project)
    ensures Without(s, xs) == OtherProjects(s, project)
  {
    if s != [] {
      assert forall c :: c in s[1..] ==> c in s;
      WithoutIsOtherProjects(s[1..], xs, project);
    }
  }

  /** The first toRemove loop: the entries of a CompletedIn relation whose run
      belongs to the given build project, in order. */
  method StaleCompletions(links: seq<Completion>, project: ProjectId) returns (toRemove: seq<Completion>)
    ensures forall c :: c in toRemove <==> c in links && c.project == project
  {
    toRemove := [];
    var i := 0;
    while i < |links|
      invariant 0 <= i <= |links|
      invariant forall c :: c in toRemove <==> c in links[..i] && c.project == project
    {
      assert links[..i + 1] == links[..i] + [links[i]];
      if links[i].project == project {
        toRemove := toRemove + [links[i]];
      }
      i := i + 1;
    }
    assert links[..i] == links;
  }

  /** The second toRemove loop: each listed entry is removed from the work
      item's CompletedIn, leaving the entries not listed, in order. */
  method RemoveEach(store: VersionOneStore, w: WorkitemId, toRemove: seq<Completion>)
    modifies store
    ensures store.Snapshot() == if toRemove == [] then old(store.Snapshot())
                                else WithCompletedIn(old(store.Snapshot()), w, Without(CompletedIn(old(store.Snapshot()), w), toRemove))
  {
    ghost var links := CompletedIn(store.Snapshot(), w);
    var j := 0;
    while j < |toRemove|
      invariant 0 <= j <= |toRemove|
      invariant store.Snapshot() == if j == 0 then old(store.Snapshot())
                                    else WithCompletedIn(old(store.Snapshot()), w, Without(links, toRemove[..j]))
    {
      RemovedWithout(links, toRemove[..j], toRemove[j]);
      assert toRemove[..j + 1] == toRemove[..j] + [toRemove[j]];
      if j == 0 {
        WithoutNone(links);
        assert toRemove[..j] == [];
      }
      store.RemoveCompletion(w, toRemove[j]);
      j := j + 1;
    }
    assert toRemove[..j] == toRemove;
  }

  /** The toRemove loops and the Add for one work item. */
  method ReplaceCompletions(store: VersionOneStore, w: WorkitemId, run: RunId, project: ProjectId)
    modifies store
    ensures store.Snapshot() == Relink(old(store.Snapshot()), w, run, project)
  {
    var links := CompletedIn(store.Snapshot(), w);
    var toRemove := StaleCompletions(links, project);
    WithoutIsOtherProjects(links, toRemove, project);
    if toRemove == [] {
      WithoutNone(links);
    }
    RemoveEach(store, w, toRemove);
    assert CompletedIn(store.Snapshot(), w) == OtherProjects(links, project);
    store.AddCompletion(w, Completion(run, project));
  }

  /** The loop over the work items, for one changeset of the run. */
  method LinkWorkitemsTo(store: VersionOneStore, run: RunId, project: ProjectId, id: ChangeSetId, ws: seq<WorkitemId>)
    modifies store
    ensures store.Snapshot() == LinkWorkitems(old(store.Snapshot()), run, project, id, ws)
  {
    var i := 0;
    assert ws[0..] == ws;
    while i < |ws|
      invariant 0 <= i <= |ws|
      invariant LinkWorkitems(store.Snapshot(), run, project, id, ws[i..]) == LinkWorkitems(old(store.Snapshot()), run, project, id, ws)
    {
      assert ws[i..][1..] == ws[i + 1..];
      store.AddPrimaryWorkitem(id, ws[i]);
      ReplaceCompletions(store, ws[i], run, project);
      i := i + 1;
    }
  }

  /** The loop over the changesets of one change. */
  method AttachChangeSetsTo(store: VersionOneStore, run: RunId, project: ProjectId, ids: seq<ChangeSetId>, ws: seq<WorkitemId>)
    modifies store
    ensures store.Snapshot() == AttachChangeSets(old(store.Snapshot()), run, project, ids, ws)
  {
    var i := 0;
    assert ids[0..] == ids;
    while i < |ids|
      invariant 0 <= i <= |ids|
      invariant AttachChangeSets(store.Snapshot(), run, project, ids[i..], ws) == AttachChangeSets(old(store.Snapshot()), run, project, ids, ws)
    {
      assert ids[i..][1..] == ids[i + 1..];
      store.AddRunChangeSet(run, ids[i]);
      LinkWorkitemsTo(store, run, project, ids[i], ws);
      i := i + 1;
    }
  }

  /** SetChangeSets: for each change, find or create its changesets, determine
      its work items, and attach both to the run. The run belongs to project. */
  method SetChangeSets(store: VersionOneStore, run: RunId, project: ProjectId, changes: seq<ChangeInfo>,
                       config: Config, services: Services) returns (r: Result<()>)
    modifies store
    ensures var p := PublishChanges(old(store.Snapshot()), run, project, changes, config, services);
      store.Snapshot() == p.state && r == p.outcome
  {
    var i := 0;
    assert changes[0..] == changes;
    while i < |changes|
      invariant 0 <= i <= |changes|
      invariant PublishChanges(store.Snapshot(), run, project, changes[i..], config, services)
                == PublishChanges(old(store.Snapshot()), run, project, changes, config, services)
    {
      var change := changes[i];
      assert changes[i..][1..] == changes[i + 1..];
      var changeSets := FindChangeSets(store.changeSets, change.number);
      if changeSets == [] {
        var name := change.user + " on " + services.showTime(change.stamp);
        var id := store.CreateChangeSet(name, change.number, change.comment);
        changeSets := [id];
      }
      var workitems := DetermineWorkitems(config.referenceExpression, config.referenceField, change.comment,
                                          services.matches, services.search);
      if workitems.Err? {
        return Err(workitems.fault);
      }
      AttachChangeSetsTo(store, run, project, changeSets, workitems.value);
      i := i + 1;
    }
    return Ok(());
  }

  /** Run, given the two readings of the clock it takes. */
  method Run(store: VersionOneStore, config: Config, result: IntegrationResult, services: Services,
             dateNow: int, elapsedNow: int) returns (r: Result<()>)
    modifies store
    ensures var p := Publish(old(store.Snapshot()), config, result, services, dateNow, elapsedNow);
      store.Snapshot() == p.state && r == p.outcome
  {
    var buildProject := FindBuildProject(store.projects, result.projectName);
    if buildProject.None? {
      return Ok(());
    }
    var project := buildProject.value;
    var changes := ResolveChanges(result.modifications);
    var description := GetModificationDescription(changes);
    var run := BuildRun(project, RunName(result.projectName, result.buildLabel), BuildDate(result.endTime, dateNow),
                        Elapsed(result.startTime, result.endTime, elapsedNow), result.buildLabel,
                        DetermineSource(result.condition), DetermineStatus(result.status), description);
    var id := store.SaveRun(run);
    var url := CreateBuildUrl(config.webRoot, config.buildServer, result.properties, Succeeded(result.status));
    if url.Err? {
      return Err(url.fault);
    }
    if url.value.Some? && url.value.value != "" {
      store.CreateLink(id, "Build Report", url.value.value, true);
    }
    r := SetChangeSets(store, id, project, changes, config, services);
  }
}
