/** The part of the VersionOne object model the publisher touches, as one store:
    build projects, saved build runs and their links, changesets keyed by
    reference, and three many-valued relations (a run's changesets, a
    changeset's primary work items, a work item's CompletedIn runs). */
module Store {
  import opened Wrappers
  import opened Workitems

  type ProjectId = nat
  type RunId = nat
  type ChangeSetId = nat

  datatype BuildProject = BuildProject(reference: string, active: bool)

  /** A build run as saved: CreateBuildRun's name and date plus the fields the
      publisher sets before Save. */
  datatype BuildRun = BuildRun(
    project: ProjectId, name: string, date: int, elapsed: real, reference: string,
    source: Option<string>, status: Option<string>, description: string)

  /** run.CreateLink(name, url, onMenu). */
  datatype Link = Link(run: RunId, name: string, url: string, onMenu: bool)

  datatype ChangeSet = ChangeSet(name: string, reference: string, description: string)

  /** One entry of a work item's CompletedIn relation: a run and the build
      project that run belongs to. */
  datatype Completion = Completion(run: RunId, project: ProjectId)

  /** The BuildProjects query: the first active project whose reference is the
      given one, or null. */
  function FindBuildProject(projects: seq<BuildProject>, reference: string): (r: Option<ProjectId>)
    ensures r.Some? ==> r.value < |projects| && projects[r.value] == BuildProject(reference, true)
    ensures r.Some? ==> forall j :: 0 <= j < r.value ==> projects[j] != BuildProject(reference, true)
    ensures r.None? ==> forall j :: 0 <= j < |projects| ==> projects[j] != BuildProject(reference, true)
  {
    if projects == [] then None
    else if projects[0] == BuildProject(reference, true) then Some(0)
    else
      var rest := FindBuildProject(projects[1..], reference);
      assert forall j :: 1 <= j < |projects| ==> projects[j] == projects[1..][j - 1];
      if rest.None? then None else Some(rest.value + 1)
  }

  /** The ChangeSets query: the changesets whose reference is the given one, in
      the order they were created. */
  function FindChangeSets(changeSets: seq<ChangeSet>, reference: string): (ids: seq<ChangeSetId>)
    ensures forall id: ChangeSetId :: id in ids <==> id < |changeSets| && changeSets[id].reference == reference
    ensures forall i, j :: 0 <= i < j < |ids| ==> ids[i] < ids[j]
  {
    if changeSets == [] then []
    else
      var n := |changeSets| - 1;
      var prior := FindChangeSets(changeSets[..n], reference);
      assert forall k :: 0 <= k < |prior| ==> prior[k] in prior;
      if changeSets[n].reference == reference then prior + [n] else prior
  }

  /** Adding changesets never hides one a reference already finds. */
  lemma FindChangeSetsExtend(xs: seq<ChangeSet>, ys: seq<ChangeSet>, reference: string)
    ensures forall id :: id in FindChangeSets(xs, reference) ==> id in FindChangeSets(xs + ys, reference)
  {
    forall id | id in FindChangeSets(xs, reference) ensures id in FindChangeSets(xs + ys, reference) {
      assert (xs + ys)[id] == xs[id];
    }
  }

  /** Adding changesets with other references leaves a lookup as it was. */
  lemma {:induction false} FindChangeSetsUnaffected(xs: seq<ChangeSet>, ys: seq<ChangeSet>, reference: string)
    requires forall k :: 0 <= k < |ys| ==> ys[k].reference != reference
    ensures FindChangeSets(xs + ys, reference) == FindChangeSets(xs, reference)
    decreases |ys|
  {
    if ys == [] {
      assert xs + ys == xs;
    } else {
      var n := |ys| - 1;
      FindChangeSetsUnaffected(xs, ys[..n], reference);
      assert (xs + ys)[..|xs + ys| - 1] == xs + ys[..n];
    }
  }

  /** Add on a relation: a target it already holds is not added twice. */
  function Added<T(==,!new)>(s: seq<T>, x: T): (r: seq<T>)
    ensures forall y :: y in r <==> y in s || y == x
  {
    if x in s then s else s + [x]
  }

  /** Remove on a relation: the target is gone from it, everything else stays in order. */
  function Removed<T(==,!new)>(s: seq<T>, x: T): (r: seq<T>)
    ensures forall y :: y in r <==> y in s && y != x
  {
    if s == [] then []
    else (if s[0] == x then [] else [s[0]]) + Removed(s[1..], x)
  }

  /** The entries of a CompletedIn relation whose run belongs to another project, in order. */
  function OtherProjects(links: seq<Completion>, project: ProjectId): (r: seq<Completion>)
    ensures forall c :: c in r <==> c in links && c.project != project
  {
    if links == [] then []
    else (if links[0].project == project then [] else [links[0]]) + OtherProjects(links[1..], project)
  }

  /** A CompletedIn relation after the publisher linked it to a new run: every
      run of the same project dropped, the new run added. */
  function Relinked(links: seq<Completion>, run: RunId, project: ProjectId): seq<Completion> {
    OtherProjects(links, project) + [Completion(run, project)]
  }

  /** After relinking, the item is completed in the new run, which comes last,
      and in no other run of that project; its runs of other projects are kept,
      in order. */
  lemma RelinkedShape(links: seq<Completion>, run: RunId, project: ProjectId)
    ensures var r := Relinked(links, run, project);
      |r| > 0 && r[|r| - 1] == Completion(run, project) &&
      (forall i :: 0 <= i < |r| - 1 ==> r[i].project != project) &&
      (forall c: Completion :: c.project != project ==> (c in r <==> c in links))
  {
    var o := OtherProjects(links, project);
    var r := Relinked(links, run, project);
    forall i | 0 <= i < |r| - 1 ensures r[i].project != project {
      assert r[i] == o[i];
      assert o[i] in o;
    }
  }

  lemma {:induction false} OtherProjectsIdempotent(links: seq<Completion>, project: ProjectId)
    ensures OtherProjects(OtherProjects(links, project), project) == OtherProjects(links, project)
  {
    if links != [] {
      OtherProjectsIdempotent(links[1..], project);
      var rest := OtherProjects(links[1..], project);
      if links[0].project != project {
        var once := OtherProjects(links, project);
        assert once == [links[0]] + rest;
        assert once[0] == links[0] && once[1..] == rest;
        assert OtherProjects(once, project) == [links[0]] + OtherProjects(rest, project);
      } else {
        assert OtherProjects(links, project) == [] + rest == rest;
      }
    }
  }

  lemma {:induction false} OtherProjectsAppend(a: seq<Completion>, b: seq<Completion>, project: ProjectId)
    ensures OtherProjects(a + b, project) == OtherProjects(a, project) + OtherProjects(b, project)
  {
    if a == [] {
      assert a + b == b;
    } else {
      assert (a + b)[1..] == a[1..] + b;
      OtherProjectsAppend(a[1..], b, project);
    }
  }

  /** Linking the same item to the same run twice leaves it as linking it once. */
  lemma RelinkedIdempotent(links: seq<Completion>, run: RunId, project: ProjectId)
    ensures Relinked(Relinked(links, run, project), run, project) == Relinked(links, run, project)
  {
    var c := Completion(run, project);
    OtherProjectsAppend(OtherProjects(links, project), [c], project);
    OtherProjectsIdempotent(links, project);
    assert OtherProjects([c], project) == [];
  }

  /** The whole store as a value: what the class below holds in its fields. */
  datatype State = State(
    projects: seq<BuildProject>, runs: seq<BuildRun>, links: seq<Link>, changeSets: seq<ChangeSet>,
    runChangeSets: map<RunId, seq<ChangeSetId>>, primaryWorkitems: map<ChangeSetId, seq<WorkitemId>>,
    completedIn: map<WorkitemId, seq<Completion>>)

  /** run.ChangeSets; a run never touched has none. */
  function RunChangeSets(s: State, run: RunId): seq<ChangeSetId> {
    if run in s.runChangeSets then s.runChangeSets[run] else []
  }

  /** changeSet.PrimaryWorkitems */
  function PrimaryWorkitems(s: State, id: ChangeSetId): seq<WorkitemId> {
    if id in s.primaryWorkitems then s.primaryWorkitems[id] else []
  }

  /** workitem.CompletedIn */
  function CompletedIn(s: State, w: WorkitemId): seq<Completion> {
    if w in s.completedIn then s.completedIn[w] else []
  }

  function WithRun(s: State, run: BuildRun): State {
    s.(runs := s.runs + [run])
  }

  function WithLink(s: State, link: Link): State {
    s.(links := s.links + [link])
  }

  function WithChangeSet(s: State, c: ChangeSet): State {
    s.(changeSets := s.changeSets + [c])
  }

  function WithRunChangeSet(s: State, run: RunId, id: ChangeSetId): State {
    s.(runChangeSets := s.runChangeSets[run := Added(RunChangeSets(s, run), id)])
  }

  function WithPrimaryWorkitem(s: State, id: ChangeSetId, w: WorkitemId): State {
    s.(primaryWorkitems := s.primaryWorkitems[id := Added(PrimaryWorkitems(s, id), w)])
  }

  function WithCompletedIn(s: State, w: WorkitemId, links: seq<Completion>): State {
    s.(completedIn := s.completedIn[w := links])
  }

  /** The VersionOne instance as the publisher sees it. Each method is one SDK
      call and is specified by the transition of the store's State. */
  class VersionOneStore {
    var projects: seq<BuildProject>
    var runs: seq<BuildRun>
    var links: seq<Link>
    var changeSets: seq<ChangeSet>
    var runChangeSets: map<RunId, seq<ChangeSetId>>
    var primaryWorkitems: map<ChangeSetId, seq<WorkitemId>>
    var completedIn: map<WorkitemId, seq<Completion>>

    function Snapshot(): State
      reads this
    {
      State(projects, runs, links, changeSets, runChangeSets, primaryWorkitems, completedIn)
    }

    constructor (projects: seq<BuildProject>)
      ensures Snapshot() == State(projects, [], [], [], map[], map[], map[])
    {
      this.projects := projects;
      runs, links, changeSets := [], [], [];
      runChangeSets, primaryWorkitems, completedIn := map[], map[], map[];
    }

    /** buildProject.CreateBuildRun followed by run.Save(). */
    method SaveRun(run: BuildRun) returns (id: RunId)
      modifies this
      ensures id == |old(runs)| && Snapshot() == WithRun(old(Snapshot()), run)
    {
      id := |runs|;
      runs := runs + [run];
    }

    /** run.CreateLink(name, url, onMenu). */
    method CreateLink(run: RunId, name: string, url: string, onMenu: bool)
      modifies this
      ensures Snapshot() == WithLink(old(Snapshot()), Link(run, name, url, onMenu))
    {
      links := links + [Link(run, name, url, onMenu)];
    }

    /** Instance.Create.ChangeSet(name, reference) with its Description then set. */
    method CreateChangeSet(name: string, reference: string, description: string) returns (id: ChangeSetId)
      modifies this
      ensures id == |old(changeSets)|
      ensures Snapshot() == WithChangeSet(old(Snapshot()), ChangeSet(name, reference, description))
    {
      id := |changeSets|;
      changeSets := changeSets + [ChangeSet(name, reference, description)];
    }

    /** run.ChangeSets.Add(changeSet). */
    method AddRunChangeSet(run: RunId, id: ChangeSetId)
      modifies this
      ensures Snapshot() == WithRunChangeSet(old(Snapshot()), run, id)
    {
      runChangeSets := runChangeSets[run := Added(RunChangeSets(Snapshot(), run), id)];
    }

    /** changeSet.PrimaryWorkitems.Add(workitem). */
    method AddPrimaryWorkitem(id: ChangeSetId, w: WorkitemId)
      modifies this
      ensures Snapshot() == WithPrimaryWorkitem(old(Snapshot()), id, w)
    {
      primaryWorkitems := primaryWorkitems[id := Added(PrimaryWorkitems(Snapshot(), id), w)];
    }

    /** workitem.CompletedIn.Remove(run). */
    method RemoveCompletion(w: WorkitemId, c: Completion)
      modifies this
      ensures Snapshot() == WithCompletedIn(old(Snapshot()), w, Removed(CompletedIn(old(Snapshot()), w), c))
    {
      completedIn := completedIn[w := Removed(CompletedIn(Snapshot(), w), c)];
    }

    /** workitem.CompletedIn.Add(run). */
    method AddCompletion(w: WorkitemId, c: Completion)
      modifies this
      ensures Snapshot() == WithCompletedIn(old(Snapshot()), w, Added(CompletedIn(old(Snapshot()), w), c))
    {
      completedIn := completedIn[w := Added(CompletedIn(Snapshot(), w), c)];
    }
  }
}
