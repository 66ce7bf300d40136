/** ResolveReference and DetermineWorkitems: from the references matched in a
    check-in comment to the primary work items a changeset is linked to. */
module Workitems {
  import opened Wrappers

  type WorkitemId = string

  /** A work item as the VersionOne search returns it: a primary item (story,
      defect), a secondary item (task, test) owned by a primary item, or an
      asset of any other type. */
  datatype Workitem =
    | Primary(id: WorkitemId)
    | Secondary(id: WorkitemId, parent: WorkitemId)
    | Other(id: WorkitemId, typeName: string)

  /** The primary item a known work item stands for: itself, or its parent. */
  function Target(w: Workitem): WorkitemId
    requires !w.Other?
  {
    if w.Primary? then w.id else w.parent
  }

  /** Puts ids in front of a successful result; a failure passes through. */
  function Prepend(ids: seq<WorkitemId>, r: Result<seq<WorkitemId>>): Result<seq<WorkitemId>> {
    match r
    case Ok(rest) => Ok(ids + rest)
    case Err(f) => Err(f)
  }

  lemma PrependTwice(a: seq<WorkitemId>, b: seq<WorkitemId>, r: Result<seq<WorkitemId>>)
    ensures Prepend(a, Prepend(b, r)) == Prepend(a + b, r)
    ensures Prepend([], r) == r
  {
    if r.Ok? {
      assert a + (b + r.value) == (a + b) + r.value;
      assert [] + r.value == r.value;
    }
  }

  /** What ResolveReference returns for the work items a search found: the
      target of each, in order, or the failure for the first item of an
      unexpected type. */
  function Resolve(found: seq<Workitem>): Result<seq<WorkitemId>> {
    if found == [] then Ok([])
    else if found[0].Other? then Err(UnexpectedWorkitemType(found[0].typeName))
    else Prepend([Target(found[0])], Resolve(found[1..]))
  }

  /** A primary item stays itself and a secondary item becomes its parent, in
      order; any other item aborts, with the type name of the first one. */
  lemma {:induction false} ResolveMeaning(found: seq<Workitem>)
    ensures Resolve(found).Ok? <==> forall k :: 0 <= k < |found| ==> !found[k].Other?
    ensures Resolve(found).Ok? ==>
              |Resolve(found).value| == |found| &&
              forall k :: 0 <= k < |found| ==> Resolve(found).value[k] == Target(found[k])
    ensures Resolve(found).Err? ==>
              exists k :: 0 <= k < |found| && found[k].Other? &&
                (forall j :: 0 <= j < k ==> !found[j].Other?) &&
                Resolve(found).fault == UnexpectedWorkitemType(found[k].typeName)
  {
    if found != [] && !found[0].Other? {
      var rest := found[1..];
      ResolveMeaning(rest);
      forall k | 1 <= k < |found| ensures found[k] == rest[k - 1] { }
      if Resolve(rest).Err? {
        var k :| 0 <= k < |rest| && rest[k].Other? && (forall j :: 0 <= j < k ==> !rest[j].Other?) &&
                 Resolve(rest).fault == UnexpectedWorkitemType(rest[k].typeName);
        assert found[k + 1] == rest[k];
      }
    }
  }

  /** ResolveReference: a loop over the work items found for one reference. */
  method ResolveReference(found: seq<Workitem>) returns (r: Result<seq<WorkitemId>>)
    ensures r == Resolve(found)
  {
    var result: seq<WorkitemId> := [];
    var i := 0;
    assert found[0..] == found;
    PrependTwice([], [], Resolve(found));
    while i < |found|
      invariant 0 <= i <= |found|
      invariant Prepend(result, Resolve(found[i..])) == Resolve(found)
    {
      var workitem := found[i];
      assert found[i..][1..] == found[i + 1..];
      if workitem.Primary? {
        PrependTwice(result, [workitem.id], Resolve(found[i + 1..]));
        result := result + [workitem.id];
      } else if workitem.Secondary? {
        PrependTwice(result, [workitem.parent], Resolve(found[i + 1..]));
        result := result + [workitem.parent];
      } else {
        return Err(UnexpectedWorkitemType(workitem.typeName));
      }
      i := i + 1;
    }
    assert found[i..] == [] && result + [] == result;
    return Ok(result);
  }

  /** What the AddRange loop of DetermineWorkitems collects over the matched
      references: the resolutions of each reference's search, concatenated,
      or the first failure. */
  function ResolveAll(references: seq<string>, field: string, search: (string, string) -> seq<Workitem>)
    : Result<seq<WorkitemId>>
  {
    if references == [] then Ok([])
    else
      match Resolve(search(references[0], field))
      case Err(f) => Err(f)
      case Ok(ids) => Prepend(ids, ResolveAll(references[1..], field, search))
  }

  /** !string.IsNullOrEmpty. */
  predicate Configured(s: Option<string>) {
    s.Some? && s.value != ""
  }

  /** What DetermineWorkitems returns for one change: nothing unless both the
      reference expression and the reference field are configured. The regex
      engine is the matches parameter: the values of the matches of a pattern
      in a text. The VersionOne search is the search parameter: the work items
      whose given field matches a search string. */
  function WorkitemsOf(expression: Option<string>, field: Option<string>, comment: string,
                       matches: (string, string) -> seq<string>, search: (string, string) -> seq<Workitem>)
    : Result<seq<WorkitemId>>
  {
    if Configured(expression) && Configured(field) then
      ResolveAll(matches(expression.value, comment), field.value, search)
    else Ok([])
  }

  /** The work items linked for a comment are exactly the targets of the
      items found for its references, and the call fails exactly when one of
      those items has an unexpected type; without both settings there are none. */
  lemma {:induction false} ResolveAllMeaning(references: seq<string>, field: string, search: (string, string) -> seq<Workitem>)
    ensures ResolveAll(references, field, search).Ok? <==>
              forall i, k :: 0 <= i < |references| && 0 <= k < |search(references[i], field)| ==>
                !search(references[i], field)[k].Other?
    ensures ResolveAll(references, field, search).Ok? ==>
              forall id :: id in ResolveAll(references, field, search).value <==>
                exists i, k :: 0 <= i < |references| && 0 <= k < |search(references[i], field)| &&
                  !search(references[i], field)[k].Other? && Target(search(references[i], field)[k]) == id
  {
    if references != [] {
      var rest := references[1..];
      var found := search(references[0], field);
      ResolveMeaning(found);
      ResolveAllMeaning(rest, field, search);
      forall i | 1 <= i < |references| ensures references[i] == rest[i - 1] { }
      if !Resolve(found).Ok? {
        var k :| 0 <= k < |found| && found[k].Other?;
        assert search(references[0], field)[k].Other?;
      } else if !ResolveAll(rest, field, search).Ok? {
        var i, k :| 0 <= i < |rest| && 0 <= k < |search(rest[i], field)| && search(rest[i], field)[k].Other?;
        assert references[i + 1] == rest[i];
      } else {
        var ids := Resolve(found).value;
        var all := ResolveAll(references, field, search).value;
        assert all == ids + ResolveAll(rest, field, search).value;
        forall id | id in all
          ensures exists i, k :: 0 <= i < |references| && 0 <= k < |search(references[i], field)| &&
                    !search(references[i], field)[k].Other? && Target(search(references[i], field)[k]) == id
        {
          if id in ids {
            var k :| 0 <= k < |ids| && ids[k] == id;
            assert Target(search(references[0], field)[k]) == id;
          } else {
            var i, k :| 0 <= i < |rest| && 0 <= k < |search(rest[i], field)| &&
                        !search(rest[i], field)[k].Other? && Target(search(rest[i], field)[k]) == id;
            assert references[i + 1] == rest[i];
          }
        }
        forall id | exists i, k :: 0 <= i < |references| && 0 <= k < |search(references[i], field)| &&
                      !search(references[i], field)[k].Other? && Target(search(references[i], field)[k]) == id
          ensures id in all
        {
          var i, k :| 0 <= i < |references| && 0 <= k < |search(references[i], field)| &&
                      !search(references[i], field)[k].Other? && Target(search(references[i], field)[k]) == id;
          if i == 0 {
            assert ids[k] == id;
          } else {
            assert references[i] == rest[i - 1];
            assert id in ResolveAll(rest, field, search).value;
          }
        }
      }
    }
  }

  /** A failure names the first item of an unexpected type: the matches are
      taken in order, and within one match the items the search found. */
  lemma {:induction false} ResolveAllFailure(references: seq<string>, field: string, search: (string, string) -> seq<Workitem>)
    ensures ResolveAll(references, field, search).Err? ==>
              exists i, k :: 0 <= i < |references| && 0 <= k < |search(references[i], field)| &&
                search(references[i], field)[k].Other? &&
                ResolveAll(references, field, search).fault == UnexpectedWorkitemType(search(references[i], field)[k].typeName) &&
                (forall j :: 0 <= j < k ==> !search(references[i], field)[j].Other?) &&
                (forall i', j :: 0 <= i' < i && 0 <= j < |search(references[i'], field)| ==> !search(references[i'], field)[j].Other?)
  {
    if references != [] {
      var rest := references[1..];
      var found := search(references[0], field);
      ResolveMeaning(found);
      if Resolve(found).Err? {
        var k :| 0 <= k < |found| && found[k].Other? && (forall j :: 0 <= j < k ==> !found[j].Other?) &&
                 Resolve(found).fault == UnexpectedWorkitemType(found[k].typeName);
        assert ResolveAll(references, field, search).fault == Resolve(found).fault;
      } else if ResolveAll(rest, field, search).Err? {
        ResolveAllFailure(rest, field, search);
        var i, k :| 0 <= i < |rest| && 0 <= k < |search(rest[i], field)| &&
                    search(rest[i], field)[k].Other? &&
                    ResolveAll(rest, field, search).fault == UnexpectedWorkitemType(search(rest[i], field)[k].typeName) &&
                    (forall j :: 0 <= j < k ==> !search(rest[i], field)[j].Other?) &&
                    (forall i', j :: 0 <= i' < i && 0 <= j < |search(rest[i'], field)| ==> !search(rest[i'], field)[j].Other?);
        assert references[i + 1] == rest[i];
        assert ResolveAll(references, field, search).fault == ResolveAll(rest, field, search).fault;
        forall i', j | 0 <= i' < i + 1 && 0 <= j < |search(references[i'], field)|
          ensures !search(references[i'], field)[j].Other?
        {
          if i' > 0 {
            assert references[i'] == rest[i' - 1];
          }
        }
      }
    }
  }

  /** DetermineWorkitems: the AddRange loop over the matches, guarded by the
      two settings. */
  method DetermineWorkitems(expression: Option<string>, field: Option<string>, comment: string,
                            matches: (string, string) -> seq<string>, search: (string, string) -> seq<Workitem>)
    returns (r: Result<seq<WorkitemId>>)
    ensures r == WorkitemsOf(expression, field, comment, matches, search)
    ensures !(Configured(expression) && Configured(field)) ==> r == Ok([])
  {
    var result: seq<WorkitemId> := [];
    if Configured(expression) && Configured(field) {
      var references := matches(expression.value, comment);
      var i := 0;
      assert references[0..] == references;
      PrependTwice([], [], ResolveAll(references, field.value, search));
      while i < |references|
        invariant 0 <= i <= |references|
        invariant Prepend(result, ResolveAll(references[i..], field.value, search)) == ResolveAll(references, field.value, search)
      {
        assert references[i..][1..] == references[i + 1..];
        var ids := ResolveReference(search(references[i], field.value));
        if ids.Err? {
          return Err(ids.fault);
        }
        PrependTwice(result, ids.value, ResolveAll(references[i + 1..], field.value, search));
        result := result + ids.value;
        i := i + 1;
      }
      assert references[i..] == [] && result + [] == result;
    }
    return Ok(result);
  }
}
