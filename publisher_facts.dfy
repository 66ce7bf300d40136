/** What publishing a build guarantees about the VersionOne store. */
module PublisherFacts {
  import opened Wrappers
  import opened Changes
  import opened Outcome
  import opened BuildUrl
  import opened Workitems
  import opened Store
  import opened Publisher

  /** How many changes SetChangeSets gets through: the leading changes whose
      work items can be determined. */
  function Processed(config: Config, services: Services, changes: seq<ChangeInfo>): (n: nat)
    ensures n <= |changes|
    ensures forall k :: 0 <= k < n ==> WorkitemsFor(config, services, changes[k]).Ok?
    ensures n < |changes| ==> WorkitemsFor(config, services, changes[n]).Err?
  {
    if changes == [] then 0
    else if WorkitemsFor(config, services, changes[0]).Err? then 0
    else
      assert forall k :: 1 <= k < |changes| ==> changes[k] == changes[1..][k - 1];
      1 + Processed(config, services, changes[1..])
  }

  /** SetChangeSets completes exactly when every change's work items can be
      determined; otherwise it fails with the first change's failure. */
  lemma {:induction false} PublishOutcome(s: State, run: RunId, project: ProjectId, changes: seq<ChangeInfo>,
                                          config: Config, services: Services)
    ensures var n := Processed(config, services, changes);
      PublishChanges(s, run, project, changes, config, services).outcome ==
        if n == |changes| then Ok(()) else Err(WorkitemsFor(config, services, changes[n]).fault)
    decreases |changes|
  {
    if changes != [] && WorkitemsFor(config, services, changes[0]).Ok? {
      var step := FoundOrCreated(s, changes[0], services.showTime);
      var s2 := AttachChangeSets(step.0, run, project, step.1, WorkitemsFor(config, services, changes[0]).value);
      PublishUnfold(s, run, project, changes, config, services);
      PublishOutcome(s2, run, project, changes[1..], config, services);
      var n := Processed(config, services, changes[1..]);
      if n < |changes[1..]| {
        assert changes[1..][n] == changes[n + 1];
      }
    }
  }

  /** The records SetChangeSets never touches: build projects, build runs and links. */
  predicate SameRecords(s: State, t: State) {
    t.projects == s.projects && t.runs == s.runs && t.links == s.links
  }

  lemma {:induction false} LinkWorkitemsKeeps(s: State, run: RunId, project: ProjectId, id: ChangeSetId, ws: seq<WorkitemId>)
    ensures var t := LinkWorkitems(s, run, project, id, ws);
      SameRecords(s, t) && t.changeSets == s.changeSets && t.runChangeSets == s.runChangeSets
    decreases |ws|
  {
    if ws != [] {
      LinkWorkitemsKeeps(Relink(WithPrimaryWorkitem(s, id, ws[0]), ws[0], run, project), run, project, id, ws[1..]);
    }
  }

  lemma {:induction false} AttachChangeSetsKeeps(s: State, run: RunId, project: ProjectId, ids: seq<ChangeSetId>, ws: seq<WorkitemId>)
    ensures var t := AttachChangeSets(s, run, project, ids, ws);
      SameRecords(s, t) && t.changeSets == s.changeSets
    decreases |ids|
  {
    if ids != [] {
      var s1 := WithRunChangeSet(s, run, ids[0]);
      LinkWorkitemsKeeps(s1, run, project, ids[0], ws);
      AttachChangeSetsKeeps(LinkWorkitems(s1, run, project, ids[0], ws), run, project, ids[1..], ws);
    }
  }

  /** SetChangeSets leaves the build projects, the build runs and their links as they were. */
  lemma {:induction false} PublishKeepsRecords(s: State, run: RunId, project: ProjectId, changes: seq<ChangeInfo>,
                                               config: Config, services: Services)
    ensures SameRecords(s, PublishChanges(s, run, project, changes, config, services).state)
    decreases |changes|
  {
    if changes != [] {
      var step := FoundOrCreated(s, changes[0], services.showTime);
      if WorkitemsFor(config, services, changes[0]).Ok? {
        var ws := WorkitemsFor(config, services, changes[0]).value;
        AttachChangeSetsKeeps(step.0, run, project, step.1, ws);
        PublishKeepsRecords(AttachChangeSets(step.0, run, project, step.1, ws), run, project, changes[1..], config, services);
      }
    }
  }

  /** From s to t, exactly the work items in items were relinked to the run:
      their CompletedIn keeps the other projects' runs and ends with this run,
      and every other work item's CompletedIn is as it was. */
  ghost predicate RelinkedFor(s: State, t: State, items: set<WorkitemId>, run: RunId, project: ProjectId) {
    forall w :: CompletedIn(t, w) == if w in items then Relinked(CompletedIn(s, w), run, project) else CompletedIn(s, w)
  }

  /** The work items of a list, as a set. */
  function Items(ws: seq<WorkitemId>): set<WorkitemId> {
    set w | w in ws
  }

  /** Relinking twice is relinking once, so relinked sets add up. */
  lemma RelinkedForCompose(s: State, t: State, u: State, a: set<WorkitemId>, b: set<WorkitemId>, run: RunId, project: ProjectId)
    requires RelinkedFor(s, t, a, run, project) && RelinkedFor(t, u, b, run, project)
    ensures RelinkedFor(s, u, a + b, run, project)
  {
    forall w | w in a && w in b
      ensures CompletedIn(u, w) == Relinked(CompletedIn(s, w), run, project)
    {
      RelinkedIdempotent(CompletedIn(s, w), run, project);
    }
  }

  lemma ItemsCons(ws: seq<WorkitemId>)
    requires ws != []
    ensures Items(ws) == {ws[0]} + Items(ws[1..])
  {
    assert ws == [ws[0]] + ws[1..];
  }

  /** One pass of the innermost loop relinks exactly its work item. */
  lemma RelinkOne(s: State, id: ChangeSetId, w: WorkitemId, run: RunId, project: ProjectId)
    ensures RelinkedFor(s, Relink(WithPrimaryWorkitem(s, id, w), w, run, project), {w}, run, project)
  {
    var s1 := WithPrimaryWorkitem(s, id, w);
    assert s1.completedIn == s.completedIn;
    forall v ensures CompletedIn(Relink(s1, w, run, project), v) ==
                     if v in {w} then Relinked(CompletedIn(s, v), run, project) else CompletedIn(s, v)
    {
      assert CompletedIn(s1, v) == CompletedIn(s, v);
    }
  }

  lemma {:induction false} LinkWorkitemsRelinks(s: State, run: RunId, project: ProjectId, id: ChangeSetId, ws: seq<WorkitemId>)
    ensures RelinkedFor(s, LinkWorkitems(s, run, project, id, ws), Items(ws), run, project)
    decreases |ws|
  {
    if ws != [] {
      var s1 := Relink(WithPrimaryWorkitem(s, id, ws[0]), ws[0], run, project);
      RelinkOne(s, id, ws[0], run, project);
      LinkWorkitemsRelinks(s1, run, project, id, ws[1..]);
      RelinkedForCompose(s, s1, LinkWorkitems(s, run, project, id, ws), {ws[0]}, Items(ws[1..]), run, project);
      ItemsCons(ws);
    }
  }

  lemma {:induction false} AttachChangeSetsRelinks(s: State, run: RunId, project: ProjectId, ids: seq<ChangeSetId>, ws: seq<WorkitemId>)
    requires ids != []
    ensures RelinkedFor(s, AttachChangeSets(s, run, project, ids, ws), Items(ws), run, project)
    decreases |ids|
  {
    var s1 := WithRunChangeSet(s, run, ids[0]);
    var s2 := LinkWorkitems(s1, run, project, ids[0], ws);
    LinkWorkitemsRelinks(s1, run, project, ids[0], ws);
    assert RelinkedFor(s, s2, Items(ws), run, project);
    if ids[1..] != [] {
      AttachChangeSetsRelinks(s2, run, project, ids[1..], ws);
      RelinkedForCompose(s, s2, AttachChangeSets(s, run, project, ids, ws), Items(ws), Items(ws), run, project);
      assert Items(ws) + Items(ws) == Items(ws);
    }
  }

  /** A work item of a later change is one of a change the whole list gets through. */
  lemma LinkedShift(config: Config, services: Services, changes: seq<ChangeInfo>, w: WorkitemId)
    requires changes != [] && WorkitemsFor(config, services, changes[0]).Ok?
    requires exists k :: 0 <= k < Processed(config, services, changes[1..]) &&
               WorkitemsFor(config, services, changes[1..][k]).Ok? && w in WorkitemsFor(config, services, changes[1..][k]).value
    ensures exists k :: 0 <= k < Processed(config, services, changes) &&
              WorkitemsFor(config, services, changes[k]).Ok? && w in WorkitemsFor(config, services, changes[k]).value
  {
    var k :| 0 <= k < Processed(config, services, changes[1..]) &&
      WorkitemsFor(config, services, changes[1..][k]).Ok? && w in WorkitemsFor(config, services, changes[1..][k]).value;
    assert changes[k + 1] == changes[1..][k];
  }

  /** The work items SetChangeSets links: those of every change it gets through. */
  function Linked(config: Config, services: Services, changes: seq<ChangeInfo>): (r: set<WorkitemId>)
    ensures forall w :: w in r <==>
              exists k :: 0 <= k < Processed(config, services, changes) &&
                WorkitemsFor(config, services, changes[k]).Ok? && w in WorkitemsFor(config, services, changes[k]).value
  {
    if changes == [] then {}
    else match WorkitemsFor(config, services, changes[0])
      case Err(_) => {}
      case Ok(ws) =>
        var rest := Linked(config, services, changes[1..]);
        assert forall k :: 1 <= k < |changes| ==> changes[k] == changes[1..][k - 1];
        forall w | w in rest
          ensures exists k :: 0 <= k < Processed(config, services, changes) &&
                    WorkitemsFor(config, services, changes[k]).Ok? && w in WorkitemsFor(config, services, changes[k]).value
        {
          LinkedShift(config, services, changes, w);
        }
        Items(ws) + rest
  }

  /** After SetChangeSets, every work item of a change it got through is
      completed in the new run and in no other run of the run's build project,
      keeping its runs of other projects; no other work item's CompletedIn changes. */
  lemma {:induction false} PublishRelinks(s: State, run: RunId, project: ProjectId, changes: seq<ChangeInfo>,
                                          config: Config, services: Services)
    ensures RelinkedFor(s, PublishChanges(s, run, project, changes, config, services).state,
                        Linked(config, services, changes), run, project)
    decreases |changes|
  {
    if changes != [] {
      var step := FoundOrCreated(s, changes[0], services.showTime);
      assert RelinkedFor(s, step.0, {}, run, project);
      if WorkitemsFor(config, services, changes[0]).Ok? {
        var ws := WorkitemsFor(config, services, changes[0]).value;
        var s2 := AttachChangeSets(step.0, run, project, step.1, ws);
        AttachChangeSetsRelinks(step.0, run, project, step.1, ws);
        RelinkedForCompose(s, step.0, s2, {}, Items(ws), run, project);
        PublishRelinks(s2, run, project, changes[1..], config, services);
        RelinkedForCompose(s, s2, PublishChanges(s, run, project, changes, config, services).state,
                           Items(ws), Linked(config, services, changes[1..]), run, project);
      }
    }
  }

  /** t's changesets are s's with more added after them. */
  ghost predicate Extends(s: seq<ChangeSet>, t: seq<ChangeSet>) {
    |s| <= |t| && t[..|s|] == s
  }

  /** Every change up to index n (the one SetChangeSets failed on included)
      has a changeset in t. */
  ghost predicate Reached(t: seq<ChangeSet>, changes: seq<ChangeInfo>, n: nat) {
    forall k :: 0 <= k < |changes| && k <= n ==> FindChangeSets(t, changes[k].number) != []
  }

  /** Each changeset t adds to s was created for one of the changes up to
      index n whose number had no changeset in s. */
  ghost predicate CreatedOnlyFor(s: seq<ChangeSet>, t: seq<ChangeSet>, changes: seq<ChangeInfo>, n: nat, showTime: int -> string)
    requires Extends(s, t)
  {
    forall i :: |s| <= i < |t| ==>
      exists k :: 0 <= k < |changes| && k <= n && t[i] == NewChangeSet(changes[k], showTime) &&
        FindChangeSets(s, changes[k].number) == []
  }

  /** No two changesets t adds to s share a reference. */
  ghost predicate AddedOnce(s: seq<ChangeSet>, t: seq<ChangeSet>) {
    forall i, j :: |s| <= i < j < |t| ==> t[i].reference != t[j].reference
  }

  /** The step SetChangeSets takes for its first change, unfolded. */
  lemma PublishUnfold(s: State, run: RunId, project: ProjectId, changes: seq<ChangeInfo>, config: Config, services: Services)
    requires changes != [] && WorkitemsFor(config, services, changes[0]).Ok?
    ensures var step := FoundOrCreated(s, changes[0], services.showTime);
      var s2 := AttachChangeSets(step.0, run, project, step.1, WorkitemsFor(config, services, changes[0]).value);
      s2.changeSets == step.0.changeSets &&
      PublishChanges(s, run, project, changes, config, services) == PublishChanges(s2, run, project, changes[1..], config, services) &&
      Processed(config, services, changes) == 1 + Processed(config, services, changes[1..])
  {
    var step := FoundOrCreated(s, changes[0], services.showTime);
    AttachChangeSetsKeeps(step.0, run, project, step.1, WorkitemsFor(config, services, changes[0]).value);
  }

  /** SetChangeSets stopped at its first change, unfolded. */
  lemma PublishStops(s: State, run: RunId, project: ProjectId, changes: seq<ChangeInfo>, config: Config, services: Services)
    requires changes != [] && WorkitemsFor(config, services, changes[0]).Err?
    ensures PublishChanges(s, run, project, changes, config, services) ==
            Published(FoundOrCreated(s, changes[0], services.showTime).0, Err(WorkitemsFor(config, services, changes[0]).fault)) &&
            Processed(config, services, changes) == 0
  {
  }

  /** SetChangeSets keeps the existing changesets as they were, in place. */
  lemma {:induction false} PublishExtends(s: State, run: RunId, project: ProjectId, changes: seq<ChangeInfo>,
                                          config: Config, services: Services)
    ensures Extends(s.changeSets, PublishChanges(s, run, project, changes, config, services).state.changeSets)
    decreases |changes|
  {
    if changes != [] {
      var step := FoundOrCreated(s, changes[0], services.showTime);
      assert Extends(s.changeSets, step.0.changeSets);
      if WorkitemsFor(config, services, changes[0]).Ok? {
        PublishUnfold(s, run, project, changes, config, services);
        var s2 := AttachChangeSets(step.0, run, project, step.1, WorkitemsFor(config, services, changes[0]).value);
        PublishExtends(s2, run, project, changes[1..], config, services);
      }
    }
  }

  /** The find-or-create step for one change, on the changesets alone. */
  ghost predicate FindOrCreateStep(s: seq<ChangeSet>, s1: seq<ChangeSet>, c: ChangeInfo, showTime: int -> string) {
    FindChangeSets(s1, c.number) != [] &&
    (FindChangeSets(s, c.number) != [] ==> s1 == s) &&
    (FindChangeSets(s, c.number) == [] ==> s1 == s + [NewChangeSet(c, showTime)])
  }

  lemma FoundOrCreatedStep(s: State, c: ChangeInfo, showTime: int -> string)
    ensures FindOrCreateStep(s.changeSets, FoundOrCreated(s, c, showTime).0.changeSets, c, showTime)
  {
  }

  lemma ReachedStep(s: seq<ChangeSet>, s1: seq<ChangeSet>, t: seq<ChangeSet>, changes: seq<ChangeInfo>, n: nat, showTime: int -> string)
    requires changes != [] && FindOrCreateStep(s, s1, changes[0], showTime)
    requires Extends(s1, t) && Reached(t, changes[1..], n)
    ensures Reached(t, changes, n + 1)
  {
    FindChangeSetsExtend(s1, t[|s1|..], changes[0].number);
    assert s1 + t[|s1|..] == t;
    assert FindChangeSets(s1, changes[0].number)[0] in FindChangeSets(t, changes[0].number);
    forall k | 0 <= k < |changes| && k <= n + 1 ensures FindChangeSets(t, changes[k].number) != [] {
      if k > 0 {
        assert changes[k] == changes[1..][k - 1];
      }
    }
  }

  /** The change a changeset t adds to s was created for. */
  lemma PickCreated(s: seq<ChangeSet>, t: seq<ChangeSet>, changes: seq<ChangeInfo>, n: nat, showTime: int -> string, i: nat)
    returns (k: nat)
    requires Extends(s, t) && CreatedOnlyFor(s, t, changes, n, showTime) && |s| <= i < |t|
    ensures k < |changes| && k <= n && t[i] == NewChangeSet(changes[k], showTime) &&
            FindChangeSets(s, changes[k].number) == []
  {
    var added := t[i];
    k :| 0 <= k < |changes| && k <= n && added == NewChangeSet(changes[k], showTime) &&
         FindChangeSets(s, changes[k].number) == [];
  }

  lemma CreatedOnlyForFirst(s: seq<ChangeSet>, s1: seq<ChangeSet>, changes: seq<ChangeInfo>, showTime: int -> string)
    requires changes != [] && FindOrCreateStep(s, s1, changes[0], showTime)
    ensures Extends(s, s1) && CreatedOnlyFor(s, s1, changes, 0, showTime)
  {
    assert s1[..|s|] == s;
    forall i | |s| <= i < |s1|
      ensures exists k :: 0 <= k < |changes| && k <= 0 && s1[i] == NewChangeSet(changes[k], showTime) &&
                FindChangeSets(s, changes[k].number) == []
    {
      assert s1[i] == NewChangeSet(changes[0], showTime) && FindChangeSets(s, changes[0].number) == [];
    }
  }

  lemma CreatedOnlyForStep(s: seq<ChangeSet>, s1: seq<ChangeSet>, t: seq<ChangeSet>, changes: seq<ChangeInfo>, n: nat, showTime: int -> string)
    requires changes != [] && FindOrCreateStep(s, s1, changes[0], showTime)
    requires Extends(s1, t) && CreatedOnlyFor(s1, t, changes[1..], n, showTime)
    ensures Extends(s, t) && CreatedOnlyFor(s, t, changes, n + 1, showTime)
  {
    var rest := changes[1..];
    CreatedOnlyForFirst(s, s1, changes, showTime);
    assert t[..|s|] == s1[..|s|] == s;
    forall i | |s| <= i < |t|
      ensures exists k :: 0 <= k < |changes| && k <= n + 1 && t[i] == NewChangeSet(changes[k], showTime) &&
                FindChangeSets(s, changes[k].number) == []
    {
      if i < |s1| {
        assert t[i] == s1[i] == NewChangeSet(changes[0], showTime);
      } else {
        var k := PickCreated(s1, t, rest, n, showTime, i);
        assert s + s1[|s|..] == s1;
        FindChangeSetsExtend(s, s1[|s|..], rest[k].number);
        assert changes[k + 1] == rest[k];
      }
    }
  }

  lemma AddedOnceStep(s: seq<ChangeSet>, s1: seq<ChangeSet>, t: seq<ChangeSet>, changes: seq<ChangeInfo>, n: nat, showTime: int -> string)
    requires changes != [] && FindOrCreateStep(s, s1, changes[0], showTime)
    requires Extends(s1, t) && CreatedOnlyFor(s1, t, changes[1..], n, showTime) && AddedOnce(s1, t)
    ensures AddedOnce(s, t)
  {
    var rest := changes[1..];
    forall i, j | |s| <= i < j < |t| ensures t[i].reference != t[j].reference {
      if i < |s1| {
        var k := PickCreated(s1, t, rest, n, showTime, j);
        assert t[i] == s1[i] && s1[i].reference == changes[0].number;
      }
    }
  }

  /** Every change SetChangeSets reached, the one it failed on included, has a changeset. */
  lemma {:induction false} PublishReaches(s: State, run: RunId, project: ProjectId, changes: seq<ChangeInfo>,
                                          config: Config, services: Services)
    ensures Reached(PublishChanges(s, run, project, changes, config, services).state.changeSets,
                    changes, Processed(config, services, changes))
    decreases |changes|
  {
    if changes != [] {
      var c := changes[0];
      var step := FoundOrCreated(s, c, services.showTime);
      FoundOrCreatedStep(s, c, services.showTime);
      if WorkitemsFor(config, services, c).Ok? {
        PublishUnfold(s, run, project, changes, config, services);
        var s2 := AttachChangeSets(step.0, run, project, step.1, WorkitemsFor(config, services, c).value);
        PublishReaches(s2, run, project, changes[1..], config, services);
        PublishExtends(s2, run, project, changes[1..], config, services);
        ReachedStep(s.changeSets, s2.changeSets, PublishChanges(s2, run, project, changes[1..], config, services).state.changeSets,
                    changes, Processed(config, services, changes[1..]), services.showTime);
      } else {
        PublishStops(s, run, project, changes, config, services);
      }
    }
  }

  /** Each changeset SetChangeSets adds was created for a change it reached
      whose number had no changeset before. */
  lemma {:induction false} PublishCreatesOnlyFor(s: State, run: RunId, project: ProjectId, changes: seq<ChangeInfo>,
                                                 config: Config, services: Services)
    ensures var t := PublishChanges(s, run, project, changes, config, services).state.changeSets;
      Extends(s.changeSets, t) &&
      CreatedOnlyFor(s.changeSets, t, changes, Processed(config, services, changes), services.showTime)
    decreases |changes|
  {
    if changes != [] {
      var c := changes[0];
      var step := FoundOrCreated(s, c, services.showTime);
      FoundOrCreatedStep(s, c, services.showTime);
      if WorkitemsFor(config, services, c).Ok? {
        PublishUnfold(s, run, project, changes, config, services);
        var s2 := AttachChangeSets(step.0, run, project, step.1, WorkitemsFor(config, services, c).value);
        PublishCreatesOnlyFor(s2, run, project, changes[1..], config, services);
        CreatedOnlyForStep(s.changeSets, s2.changeSets, PublishChanges(s2, run, project, changes[1..], config, services).state.changeSets,
                           changes, Processed(config, services, changes[1..]), services.showTime);
      } else {
        PublishStops(s, run, project, changes, config, services);
        CreatedOnlyForFirst(s.changeSets, step.0.changeSets, changes, services.showTime);
      }
    }
  }

  /** SetChangeSets never creates two changesets with the same reference. */
  lemma {:induction false} PublishCreatesOnce(s: State, run: RunId, project: ProjectId, changes: seq<ChangeInfo>,
                                              config: Config, services: Services)
    ensures AddedOnce(s.changeSets, PublishChanges(s, run, project, changes, config, services).state.changeSets)
    decreases |changes|
  {
    if changes != [] {
      var c := changes[0];
      var step := FoundOrCreated(s, c, services.showTime);
      FoundOrCreatedStep(s, c, services.showTime);
      if WorkitemsFor(config, services, c).Ok? {
        PublishUnfold(s, run, project, changes, config, services);
        var s2 := AttachChangeSets(step.0, run, project, step.1, WorkitemsFor(config, services, c).value);
        PublishCreatesOnce(s2, run, project, changes[1..], config, services);
        PublishCreatesOnlyFor(s2, run, project, changes[1..], config, services);
        AddedOnceStep(s.changeSets, s2.changeSets, PublishChanges(s2, run, project, changes[1..], config, services).state.changeSets,
                      changes, Processed(config, services, changes[1..]), services.showTime);
      } else {
        PublishStops(s, run, project, changes, config, services);
      }
    }
  }

  /** The many-valued relations only gain targets from s to t. */
  ghost predicate Grows(s: State, t: State) {
    (forall r, id :: id in RunChangeSets(s, r) ==> id in RunChangeSets(t, r)) &&
    (forall id, w :: w in PrimaryWorkitems(s, id) ==> w in PrimaryWorkitems(t, id))
  }

  lemma GrowsTransitive(s: State, t: State, u: State)
    requires Grows(s, t) && Grows(t, u)
    ensures Grows(s, u)
  {
  }

  lemma {:induction false} LinkWorkitemsGrows(s: State, run: RunId, project: ProjectId, id: ChangeSetId, ws: seq<WorkitemId>)
    ensures var t := LinkWorkitems(s, run, project, id, ws);
      Grows(s, t) && forall w :: w in ws ==> w in PrimaryWorkitems(t, id)
    decreases |ws|
  {
    if ws != [] {
      var s1 := Relink(WithPrimaryWorkitem(s, id, ws[0]), ws[0], run, project);
      LinkWorkitemsGrows(s1, run, project, id, ws[1..]);
      assert ws[0] in PrimaryWorkitems(s1, id);
      assert forall w :: w in ws ==> w == ws[0] || w in ws[1..];
    }
  }

  lemma {:induction false} AttachChangeSetsGrows(s: State, run: RunId, project: ProjectId, ids: seq<ChangeSetId>, ws: seq<WorkitemId>)
    ensures var t := AttachChangeSets(s, run, project, ids, ws);
      Grows(s, t) &&
      forall id :: id in ids ==> id in RunChangeSets(t, run) && forall w :: w in ws ==> w in PrimaryWorkitems(t, id)
    decreases |ids|
  {
    if ids != [] {
      var s1 := WithRunChangeSet(s, run, ids[0]);
      var s2 := LinkWorkitems(s1, run, project, ids[0], ws);
      LinkWorkitemsGrows(s1, run, project, ids[0], ws);
      LinkWorkitemsKeeps(s1, run, project, ids[0], ws);
      AttachChangeSetsGrows(s2, run, project, ids[1..], ws);
      assert ids[0] in RunChangeSets(s2, run);
      assert forall id :: id in ids ==> id == ids[0] || id in ids[1..];
    }
  }

  /** SetChangeSets takes nothing away from a run's changesets or a changeset's work items. */
  lemma {:induction false} PublishGrows(s: State, run: RunId, project: ProjectId, changes: seq<ChangeInfo>,
                                        config: Config, services: Services)
    ensures Grows(s, PublishChanges(s, run, project, changes, config, services).state)
    decreases |changes|
  {
    if changes != [] {
      var c := changes[0];
      var step := FoundOrCreated(s, c, services.showTime);
      var t := PublishChanges(s, run, project, changes, config, services).state;
      assert step.0.runChangeSets == s.runChangeSets && step.0.primaryWorkitems == s.primaryWorkitems;
      assert Grows(s, step.0);
      if WorkitemsFor(config, services, c).Ok? {
        var ws := WorkitemsFor(config, services, c).value;
        PublishUnfold(s, run, project, changes, config, services);
        var s2 := AttachChangeSets(step.0, run, project, step.1, ws);
        AttachChangeSetsGrows(step.0, run, project, step.1, ws);
        PublishGrows(s2, run, project, changes[1..], config, services);
        GrowsTransitive(step.0, s2, t);
        GrowsTransitive(s, step.0, t);
      } else {
        assert t == step.0;
      }
    }
  }

  /** From s to t, every run other than run keeps its changesets exactly. */
  ghost predicate OtherRunsKept(s: State, t: State, run: RunId) {
    forall r :: r != run ==> RunChangeSets(t, r) == RunChangeSets(s, r)
  }

  /** Changeset id carries the number of one of the first n changes. */
  ghost predicate ForProcessed(t: seq<ChangeSet>, id: ChangeSetId, changes: seq<ChangeInfo>, n: nat) {
    exists k :: 0 <= k < n && k < |changes| && id < |t| && t[id].reference == changes[k].number
  }

  /** Changeset id carries the number of one of the first n changes, and w is
      one of that change's work items. */
  ghost predicate ItemForProcessed(t: seq<ChangeSet>, id: ChangeSetId, w: WorkitemId, changes: seq<ChangeInfo>, n: nat,
                                   config: Config, services: Services) {
    exists k :: 0 <= k < n && k < |changes| && id < |t| && t[id].reference == changes[k].number &&
      WorkitemsFor(config, services, changes[k]).Ok? && w in WorkitemsFor(config, services, changes[k]).value
  }

  /** If the run holds changeset id in t, it held it in s or id is in ids. */
  ghost predicate RunBound(s: State, t: State, run: RunId, id: ChangeSetId, ids: seq<ChangeSetId>) {
    id in RunChangeSets(t, run) ==> id in RunChangeSets(s, run) || id in ids
  }

  /** If changeset id holds w in t, it held it in s or id is in ids and w in ws. */
  ghost predicate ItemBound(s: State, t: State, id: ChangeSetId, w: WorkitemId, ids: seq<ChangeSetId>, ws: seq<WorkitemId>) {
    w in PrimaryWorkitems(t, id) ==> w in PrimaryWorkitems(s, id) || (id in ids && w in ws)
  }

  /** From s to t, the run gains only changesets in ids, a changeset gains
      work items only if it is in ids and they are in ws, and every other run's
      changesets stay as they were. */
  ghost predicate AttachesOnly(s: State, t: State, run: RunId, ids: seq<ChangeSetId>, ws: seq<WorkitemId>) {
    OtherRunsKept(s, t, run) &&
    (forall id :: RunBound(s, t, run, id, ids)) &&
    (forall id, w :: ItemBound(s, t, id, w, ids, ws))
  }

  /** If the run holds changeset id in t, it held it in s or id carries the
      number of one of the first n changes. */
  ghost predicate RunAdded(s: State, t: State, run: RunId, id: ChangeSetId, changes: seq<ChangeInfo>, n: nat) {
    id in RunChangeSets(t, run) ==> id in RunChangeSets(s, run) || ForProcessed(t.changeSets, id, changes, n)
  }

  /** If changeset id holds w in t, it held it in s or w is a work item of one
      of the first n changes, whose number id carries. */
  ghost predicate ItemAdded(s: State, t: State, id: ChangeSetId, w: WorkitemId, changes: seq<ChangeInfo>, n: nat,
                            config: Config, services: Services) {
    w in PrimaryWorkitems(t, id) ==> w in PrimaryWorkitems(s, id) || ItemForProcessed(t.changeSets, id, w, changes, n, config, services)
  }

  /** From s to t, the run gains only changesets of the first n changes, a
      changeset gains only work items of those changes with its number, and
      the other runs' changesets are untouched. */
  ghost predicate AddsOnly(s: State, t: State, run: RunId, changes: seq<ChangeInfo>, n: nat, config: Config, services: Services) {
    OtherRunsKept(s, t, run) &&
    (forall id :: RunAdded(s, t, run, id, changes, n)) &&
    (forall id, w :: ItemAdded(s, t, id, w, changes, n, config, services))
  }

  lemma AttachesOnlyCompose(s: State, u: State, t: State, run: RunId, ids1: seq<ChangeSetId>, ws1: seq<WorkitemId>,
                            ids2: seq<ChangeSetId>, ws2: seq<WorkitemId>, ids: seq<ChangeSetId>, ws: seq<WorkitemId>)
    requires AttachesOnly(s, u, run, ids1, ws1) && AttachesOnly(u, t, run, ids2, ws2)
    requires forall i :: i in ids1 ==> i in ids
    requires forall i :: i in ids2 ==> i in ids
    requires forall w :: w in ws1 ==> w in ws
    requires forall w :: w in ws2 ==> w in ws
    ensures AttachesOnly(s, t, run, ids, ws)
  {
    forall r | r != run ensures RunChangeSets(t, r) == RunChangeSets(s, r) {
      assert RunChangeSets(t, r) == RunChangeSets(u, r);
    }
    forall id ensures RunBound(s, t, run, id, ids) {
      assert RunBound(s, u, run, id, ids1) && RunBound(u, t, run, id, ids2);
    }
    forall id, w ensures ItemBound(s, t, id, w, ids, ws) {
      assert ItemBound(s, u, id, w, ids1, ws1) && ItemBound(u, t, id, w, ids2, ws2);
    }
  }

  /** One work item added to a changeset and relinked. */
  lemma LinkOneOnly(s: State, run: RunId, project: ProjectId, id: ChangeSetId, w0: WorkitemId)
    ensures AttachesOnly(s, Relink(WithPrimaryWorkitem(s, id, w0), w0, run, project), run, [id], [w0])
  {
    var s1 := WithPrimaryWorkitem(s, id, w0);
    var t := Relink(s1, w0, run, project);
    assert t.runChangeSets == s.runChangeSets && t.primaryWorkitems == s1.primaryWorkitems;
    forall i ensures RunBound(s, t, run, i, [id]) {
      assert RunChangeSets(t, run) == RunChangeSets(s, run);
    }
    forall i, w ensures ItemBound(s, t, i, w, [id], [w0]) {
      if i == id {
        assert PrimaryWorkitems(t, i) == Added(PrimaryWorkitems(s, i), w0);
      } else {
        assert PrimaryWorkitems(t, i) == PrimaryWorkitems(s, i);
      }
    }
  }

  lemma {:induction false} LinkWorkitemsOnly(s: State, run: RunId, project: ProjectId, id: ChangeSetId, ws: seq<WorkitemId>)
    ensures AttachesOnly(s, LinkWorkitems(s, run, project, id, ws), run, [id], ws)
    decreases |ws|
  {
    if ws != [] {
      var s1 := Relink(WithPrimaryWorkitem(s, id, ws[0]), ws[0], run, project);
      LinkOneOnly(s, run, project, id, ws[0]);
      LinkWorkitemsOnly(s1, run, project, id, ws[1..]);
      AttachesOnlyCompose(s, s1, LinkWorkitems(s, run, project, id, ws), run, [id], [ws[0]], [id], ws[1..], [id], ws);
    } else {
      forall i ensures RunBound(s, s, run, i, [id]) { }
      forall i, w ensures ItemBound(s, s, i, w, [id], ws) { }
    }
  }

  /** One changeset added to the run. */
  lemma AddRunChangeSetOnly(s: State, run: RunId, id: ChangeSetId, ws: seq<WorkitemId>)
    ensures AttachesOnly(s, WithRunChangeSet(s, run, id), run, [id], ws)
  {
    var t := WithRunChangeSet(s, run, id);
    assert t.primaryWorkitems == s.primaryWorkitems;
    forall r | r != run ensures RunChangeSets(t, r) == RunChangeSets(s, r) {
    }
    forall i ensures RunBound(s, t, run, i, [id]) {
      assert RunChangeSets(t, run) == Added(RunChangeSets(s, run), id);
    }
    forall i, w ensures ItemBound(s, t, i, w, [id], ws) {
      assert PrimaryWorkitems(t, i) == PrimaryWorkitems(s, i);
    }
  }

  lemma {:induction false} AttachChangeSetsOnly(s: State, run: RunId, project: ProjectId, ids: seq<ChangeSetId>, ws: seq<WorkitemId>)
    ensures AttachesOnly(s, AttachChangeSets(s, run, project, ids, ws), run, ids, ws)
    decreases |ids|
  {
    var t := AttachChangeSets(s, run, project, ids, ws);
    if ids != [] {
      var s1 := WithRunChangeSet(s, run, ids[0]);
      var s2 := LinkWorkitems(s1, run, project, ids[0], ws);
      AddRunChangeSetOnly(s, run, ids[0], ws);
      LinkWorkitemsOnly(s1, run, project, ids[0], ws);
      AttachesOnlyCompose(s, s1, s2, run, [ids[0]], ws, [ids[0]], ws, [ids[0]], ws);
      AttachChangeSetsOnly(s2, run, project, ids[1..], ws);
      assert forall i :: i in ids[1..] ==> i in ids;
      AttachesOnlyCompose(s, s2, t, run, [ids[0]], ws, ids[1..], ws, ids, ws);
    } else {
      forall i ensures RunBound(s, s, run, i, ids) { }
      forall i, w ensures ItemBound(s, s, i, w, ids, ws) { }
    }
  }

  /** The first change's changesets, carried over to the whole list. */
  lemma ForProcessedFirst(t: seq<ChangeSet>, id: ChangeSetId, changes: seq<ChangeInfo>, n: nat)
    requires changes != [] && id < |t| && t[id].reference == changes[0].number
    ensures ForProcessed(t, id, changes, n + 1)
  {
  }

  lemma ItemForProcessedFirst(t: seq<ChangeSet>, id: ChangeSetId, w: WorkitemId, changes: seq<ChangeInfo>, n: nat,
                              config: Config, services: Services)
    requires changes != [] && id < |t| && t[id].reference == changes[0].number
    requires WorkitemsFor(config, services, changes[0]).Ok? && w in WorkitemsFor(config, services, changes[0]).value
    ensures ItemForProcessed(t, id, w, changes, n + 1, config, services)
  {
  }

  /** A later change's changesets, carried over to the whole list. */
  lemma ForProcessedShift(t: seq<ChangeSet>, id: ChangeSetId, changes: seq<ChangeInfo>, n: nat)
    requires changes != [] && ForProcessed(t, id, changes[1..], n)
    ensures ForProcessed(t, id, changes, n + 1)
  {
    var k :| 0 <= k < n && k < |changes[1..]| && id < |t| && t[id].reference == changes[1..][k].number;
    assert changes[k + 1] == changes[1..][k];
  }

  lemma ItemForProcessedShift(t: seq<ChangeSet>, id: ChangeSetId, w: WorkitemId, changes: seq<ChangeInfo>, n: nat,
                              config: Config, services: Services)
    requires changes != [] && ItemForProcessed(t, id, w, changes[1..], n, config, services)
    ensures ItemForProcessed(t, id, w, changes, n + 1, config, services)
  {
    var k :| 0 <= k < n && k < |changes[1..]| && id < |t| && t[id].reference == changes[1..][k].number &&
      WorkitemsFor(config, services, changes[1..][k]).Ok? && w in WorkitemsFor(config, services, changes[1..][k]).value;
    assert changes[k + 1] == changes[1..][k];
  }

  /** One step of SetChangeSets composed with the rest of it. s0 is s after
      the find-or-create, s2 after the first change's changesets are attached. */
  lemma AddsOnlyStep(s: State, s0: State, s2: State, t: State, run: RunId, changes: seq<ChangeInfo>, ids: seq<ChangeSetId>, n: nat,
                     config: Config, services: Services)
    requires changes != [] && WorkitemsFor(config, services, changes[0]).Ok?
    requires s0.runChangeSets == s.runChangeSets && s0.primaryWorkitems == s.primaryWorkitems
    requires AttachesOnly(s0, s2, run, ids, WorkitemsFor(config, services, changes[0]).value)
    requires forall i :: i in ids ==> i < |s2.changeSets| && s2.changeSets[i].reference == changes[0].number
    requires Extends(s2.changeSets, t.changeSets)
    requires AddsOnly(s2, t, run, changes[1..], n, config, services)
    ensures AddsOnly(s, t, run, changes, n + 1, config, services)
  {
    var ws := WorkitemsFor(config, services, changes[0]).value;
    var m := n + 1;
    forall r | r != run ensures RunChangeSets(t, r) == RunChangeSets(s, r) {
      assert RunChangeSets(t, r) == RunChangeSets(s2, r) == RunChangeSets(s0, r);
    }
    forall id: ChangeSetId ensures RunAdded(s, t, run, id, changes, m) {
      assert RunAdded(s2, t, run, id, changes[1..], n) && RunBound(s0, s2, run, id, ids);
      assert RunChangeSets(s0, run) == RunChangeSets(s, run);
      if id in RunChangeSets(t, run) {
        if ForProcessed(t.changeSets, id, changes[1..], n) {
          ForProcessedShift(t.changeSets, id, changes, n);
        } else if id in ids {
          assert t.changeSets[id] == s2.changeSets[id];
          ForProcessedFirst(t.changeSets, id, changes, n);
        }
      }
    }
    forall id: ChangeSetId, w: WorkitemId ensures ItemAdded(s, t, id, w, changes, m, config, services) {
      assert ItemAdded(s2, t, id, w, changes[1..], n, config, services) && ItemBound(s0, s2, id, w, ids, ws);
      assert PrimaryWorkitems(s0, id) == PrimaryWorkitems(s, id);
      if w in PrimaryWorkitems(t, id) {
        if ItemForProcessed(t.changeSets, id, w, changes[1..], n, config, services) {
          ItemForProcessedShift(t.changeSets, id, w, changes, n, config, services);
        } else if id in ids && w in ws {
          assert t.changeSets[id] == s2.changeSets[id];
          ItemForProcessedFirst(t.changeSets, id, w, changes, n, config, services);
        }
      }
    }
  }

  /** SetChangeSets adds nothing beyond the changes it gets through: the run
      gains only changesets carrying their numbers (not the changeset of the
      change it stops on), a changeset gains only work items of those changes
      with its number, and every other run's changesets stay as they were. */
  lemma {:induction false} PublishAddsOnly(s: State, run: RunId, project: ProjectId, changes: seq<ChangeInfo>,
                                           config: Config, services: Services)
    ensures AddsOnly(s, PublishChanges(s, run, project, changes, config, services).state, run, changes,
                     Processed(config, services, changes), config, services)
    decreases |changes|
  {
    if changes != [] {
      var c := changes[0];
      var step := FoundOrCreated(s, c, services.showTime);
      var t := PublishChanges(s, run, project, changes, config, services).state;
      if WorkitemsFor(config, services, c).Ok? {
        var ws := WorkitemsFor(config, services, c).value;
        PublishUnfold(s, run, project, changes, config, services);
        var s2 := AttachChangeSets(step.0, run, project, step.1, ws);
        AttachChangeSetsOnly(step.0, run, project, step.1, ws);
        PublishAddsOnly(s2, run, project, changes[1..], config, services);
        PublishExtends(s2, run, project, changes[1..], config, services);
        AddsOnlyStep(s, step.0, s2, t, run, changes, step.1, Processed(config, services, changes[1..]), config, services);
      } else {
        PublishStops(s, run, project, changes, config, services);
        AddsNothing(s, step.0, run, changes, config, services);
      }
    } else {
      AddsNothing(s, s, run, changes, config, services);
    }
  }

  lemma AddsNothing(s: State, t: State, run: RunId, changes: seq<ChangeInfo>, config: Config, services: Services)
    requires t.runChangeSets == s.runChangeSets && t.primaryWorkitems == s.primaryWorkitems
    ensures AddsOnly(s, t, run, changes, 0, config, services)
  {
    forall id ensures RunAdded(s, t, run, id, changes, 0) {
      assert RunChangeSets(t, run) == RunChangeSets(s, run);
    }
    forall id, w ensures ItemAdded(s, t, id, w, changes, 0, config, services) {
      assert PrimaryWorkitems(t, id) == PrimaryWorkitems(s, id);
    }
  }

  /** Change numbers as ResolveChanges leaves them: no two alike. */
  ghost predicate DistinctNumbers(changes: seq<ChangeInfo>) {
    forall i, j :: 0 <= i < j < |changes| ==> changes[i].number != changes[j].number
  }

  /** Changeset id belongs to the run in t and holds each work item of change c. */
  ghost predicate Holds(t: State, run: RunId, c: ChangeInfo, id: ChangeSetId, config: Config, services: Services) {
    id in RunChangeSets(t, run) &&
    (WorkitemsFor(config, services, c).Ok? ==>
       forall w :: w in WorkitemsFor(config, services, c).value ==> w in PrimaryWorkitems(t, id))
  }

  /** In t, every changeset of each of the first n changes belongs to the run
      and holds each work item of that change. */
  ghost predicate Associated(t: State, run: RunId, changes: seq<ChangeInfo>, n: nat, config: Config, services: Services) {
    forall k, id :: 0 <= k < n && k < |changes| && id in FindChangeSets(t.changeSets, changes[k].number) ==>
      Holds(t, run, changes[k], id, config, services)
  }

  /** A lookup of the first change's number is not disturbed by the
      changesets created for the later ones. */
  lemma LookupKept(s2: seq<ChangeSet>, t: seq<ChangeSet>, changes: seq<ChangeInfo>, n: nat, showTime: int -> string)
    requires changes != [] && DistinctNumbers(changes)
    requires Extends(s2, t) && CreatedOnlyFor(s2, t, changes[1..], n, showTime)
    ensures FindChangeSets(t, changes[0].number) == FindChangeSets(s2, changes[0].number)
  {
    var rest := changes[1..];
    var added := t[|s2|..];
    forall i | 0 <= i < |added| ensures added[i].reference != changes[0].number {
      var k := PickCreated(s2, t, rest, n, showTime, |s2| + i);
      assert rest[k] == changes[k + 1];
    }
    assert s2 + added == t;
    FindChangeSetsUnaffected(s2, added, changes[0].number);
  }

  lemma AssociatedStep(s2: State, t: State, run: RunId, changes: seq<ChangeInfo>, n: nat, config: Config, services: Services)
    requires changes != [] && WorkitemsFor(config, services, changes[0]).Ok?
    requires FindChangeSets(t.changeSets, changes[0].number) == FindChangeSets(s2.changeSets, changes[0].number)
    requires forall id :: id in FindChangeSets(s2.changeSets, changes[0].number) ==> Holds(s2, run, changes[0], id, config, services)
    requires Grows(s2, t)
    requires Associated(t, run, changes[1..], n, config, services)
    ensures Associated(t, run, changes, n + 1, config, services)
  {
    var rest := changes[1..];
    forall k, id | 0 <= k < n + 1 && k < |changes| && id in FindChangeSets(t.changeSets, changes[k].number)
      ensures Holds(t, run, changes[k], id, config, services)
    {
      if k == 0 {
        FirstAssociated(s2, t, run, changes[0], id, config, services);
      } else {
        assert changes[k] == rest[k - 1];
      }
    }
  }

  lemma FirstAssociated(s2: State, t: State, run: RunId, c: ChangeInfo, id: ChangeSetId, config: Config, services: Services)
    requires Holds(s2, run, c, id, config, services) && Grows(s2, t)
    ensures Holds(t, run, c, id, config, services)
  {
  }

  /** After SetChangeSets, with change numbers as ResolveChanges leaves them,
      every changeset carrying the number of a change it got through belongs
      to the run and holds every work item of that change. */
  lemma {:induction false} PublishAssociates(s: State, run: RunId, project: ProjectId, changes: seq<ChangeInfo>,
                                             config: Config, services: Services)
    requires DistinctNumbers(changes)
    ensures Associated(PublishChanges(s, run, project, changes, config, services).state, run, changes,
                       Processed(config, services, changes), config, services)
    decreases |changes|
  {
    if changes != [] {
      var c := changes[0];
      var step := FoundOrCreated(s, c, services.showTime);
      if WorkitemsFor(config, services, c).Ok? {
        var ws := WorkitemsFor(config, services, c).value;
        PublishUnfold(s, run, project, changes, config, services);
        var s2 := AttachChangeSets(step.0, run, project, step.1, ws);
        AttachChangeSetsGrows(step.0, run, project, step.1, ws);
        var rest := changes[1..];
        var t := PublishChanges(s2, run, project, rest, config, services).state;
        PublishAssociates(s2, run, project, rest, config, services);
        PublishGrows(s2, run, project, rest, config, services);
        PublishCreatesOnlyFor(s2, run, project, rest, config, services);
        LookupKept(s2.changeSets, t.changeSets, changes, Processed(config, services, rest), services.showTime);
        AssociatedStep(s2, t, run, changes, Processed(config, services, rest), config, services);
      }
    }
  }

  /** Run without an active build project of the result's name does nothing.
      With one, it saves exactly one new run and leaves the build projects
      alone, and it adds the "Build Report" link exactly when a web root is
      configured and the build time and date properties are present. */
  lemma RunRecords(s: State, config: Config, result: IntegrationResult, services: Services, dateNow: int, elapsedNow: int)
    ensures var p := Publish(s, config, result, services, dateNow, elapsedNow);
      var found := FindBuildProject(s.projects, result.projectName);
      var url := CreateBuildUrl(config.webRoot, config.buildServer, result.properties, Succeeded(result.status));
      (found.None? ==> p == Published(s, Ok(()))) &&
      (found.Some? ==>
         p.state.projects == s.projects &&
         p.state.runs == s.runs + [NewRun(found.value, result, Distinct(result.modifications), dateNow, elapsedNow)] &&
         (|p.state.links| == |s.links| + 1 <==>
            config.webRoot.Some? && BuildTimeKey in result.properties && BuildDateKey in result.properties) &&
         (url.Ok? && url.value.Some? ==> p.state.links == s.links + [Link(|s.runs|, "Build Report", url.value.value, true)]) &&
         (!(url.Ok? && url.value.Some?) ==> p.state.links == s.links))
  {
    var found := FindBuildProject(s.projects, result.projectName);
    if found.Some? {
      var url := CreateBuildUrl(config.webRoot, config.buildServer, result.properties, Succeeded(result.status));
      BuildUrlNeverEmpty(config.webRoot, config.buildServer, result.properties, Succeeded(result.status));
      if url.Ok? {
        var changes := Distinct(result.modifications);
        var saved := WithRun(s, NewRun(found.value, result, changes, dateNow, elapsedNow));
        var linked := if url.value.Some? && url.value.value != "" then WithLink(saved, Link(|s.runs|, "Build Report", url.value.value, true)) else saved;
        PublishKeepsRecords(linked, |s.runs|, found.value, changes, config, services);
        assert Publish(s, config, result, services, dateNow, elapsedNow).state ==
               PublishChanges(linked, |s.runs|, found.value, changes, config, services).state;
      }
    }
  }

  /** With a build project, Run fails on a URL that cannot be built, and
      otherwise exactly when SetChangeSets fails. */
  lemma RunOutcome(s: State, config: Config, result: IntegrationResult, services: Services, dateNow: int, elapsedNow: int)
    requires FindBuildProject(s.projects, result.projectName).Some?
    ensures var p := Publish(s, config, result, services, dateNow, elapsedNow);
      var url := CreateBuildUrl(config.webRoot, config.buildServer, result.properties, Succeeded(result.status));
      var changes := Distinct(result.modifications);
      (url.Err? ==> p.outcome == Err(url.fault)) &&
      (p.outcome.Ok? <==> url.Ok? && Processed(config, services, changes) == |changes|)
  {
    var project := FindBuildProject(s.projects, result.projectName).value;
    var url := CreateBuildUrl(config.webRoot, config.buildServer, result.properties, Succeeded(result.status));
    if url.Ok? {
      var changes := Distinct(result.modifications);
      var saved := WithRun(s, NewRun(project, result, changes, dateNow, elapsedNow));
      var linked := if url.value.Some? && url.value.value != "" then WithLink(saved, Link(|s.runs|, "Build Report", url.value.value, true)) else saved;
      PublishOutcome(linked, |s.runs|, project, changes, config, services);
      assert Publish(s, config, result, services, dateNow, elapsedNow) == PublishChanges(linked, |s.runs|, project, changes, config, services);
    }
  }

  /** When Run gets as far as SetChangeSets, the work items of every change it
      gets through are completed in the new run and in no earlier run of the
      build project, and every changeset of those changes belongs to the new
      run and holds their work items: ResolveChanges leaves no two changes
      with one number, so no change's changesets are confused with another's. */
  lemma RunLinksWorkitems(s: State, config: Config, result: IntegrationResult, services: Services, dateNow: int, elapsedNow: int)
    requires FindBuildProject(s.projects, result.projectName).Some?
    requires CreateBuildUrl(config.webRoot, config.buildServer, result.properties, Succeeded(result.status)).Ok?
    ensures var p := Publish(s, config, result, services, dateNow, elapsedNow);
      var project := FindBuildProject(s.projects, result.projectName).value;
      var changes := Distinct(result.modifications);
      var n := Processed(config, services, changes);
      RelinkedFor(s, p.state, Linked(config, services, changes), |s.runs|, project) &&
      Associated(p.state, |s.runs|, changes, n, config, services) &&
      Reached(p.state.changeSets, changes, n)
  {
    var project := FindBuildProject(s.projects, result.projectName).value;
    var url := CreateBuildUrl(config.webRoot, config.buildServer, result.properties, Succeeded(result.status));
    var changes := Distinct(result.modifications);
    var saved := WithRun(s, NewRun(project, result, changes, dateNow, elapsedNow));
    var linked := if url.value.Some? && url.value.value != "" then WithLink(saved, Link(|s.runs|, "Build Report", url.value.value, true)) else saved;
    assert RelinkedFor(s, linked, {}, |s.runs|, project);
    PublishRelinks(linked, |s.runs|, project, changes, config, services);
    RelinkedForCompose(s, linked, Publish(s, config, result, services, dateNow, elapsedNow).state,
                       {}, Linked(config, services, changes), |s.runs|, project);
    DistinctHasNoDuplicates(result.modifications);
    PublishAssociates(linked, |s.runs|, project, changes, config, services);
    PublishReaches(linked, |s.runs|, project, changes, config, services);
  }
}
