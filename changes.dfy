/** ResolveChanges, ChangeInfo and GetModificationDescription: the modification
    list reduced to one record per change number, and the build-run description
    made from those records. */
module Changes {

  /** A CCNet modification: one file touched by one source-control change.
      Times are DateTime ticks. */
  datatype Modification = Modification(changeNumber: string, userName: string, comment: string, modifiedTime: int)

  /** The publisher's copy of one change. */
  datatype ChangeInfo = ChangeInfo(number: string, comment: string, user: string, stamp: int)

  /** The ChangeInfo(Modification) constructor: each field copied from its
      counterpart in the modification. */
  function FromModification(m: Modification): (c: ChangeInfo)
    ensures c.number == m.changeNumber && c.comment == m.comment
    ensures c.user == m.userName && c.stamp == m.modifiedTime
  {
    ChangeInfo(m.changeNumber, m.comment, m.userName, m.modifiedTime)
  }

  /** The change numbers that occur in a modification list. */
  ghost function ChangeNumbers(mods: seq<Modification>): set<string> {
    set i | 0 <= i < |mods| :: mods[i].changeNumber
  }

  /** The change numbers already held by a list of ChangeInfo (the dictionary's keys). */
  ghost function Numbers(changes: seq<ChangeInfo>): set<string> {
    set i | 0 <= i < |changes| :: changes[i].number
  }

  /** Position of the first modification that carries change number n. */
  function FirstIndex(mods: seq<Modification>, n: string): (i: nat)
    requires n in ChangeNumbers(mods)
    ensures i < |mods| && mods[i].changeNumber == n
    ensures forall j :: 0 <= j < i ==> mods[j].changeNumber != n
  {
    if mods[0].changeNumber == n then 0
    else
      assert n in ChangeNumbers(mods[1..]) by {
        var k :| 0 <= k < |mods| && mods[k].changeNumber == n;
        assert mods[1..][k - 1] == mods[k];
      }
      1 + FirstIndex(mods[1..], n)
  }

  /** The dictionary's values after the foreach loop has seen mods, read back in
      insertion order: a modification is added only when its number is new. */
  ghost function Distinct(mods: seq<Modification>): seq<ChangeInfo> {
    if mods == [] then []
    else
      var prior := Distinct(mods[..|mods| - 1]);
      var m := mods[|mods| - 1];
      if m.changeNumber in Numbers(prior) then prior else prior + [FromModification(m)]
  }

  lemma NumbersAppend(changes: seq<ChangeInfo>, c: ChangeInfo)
    ensures Numbers(changes + [c]) == Numbers(changes) + {c.number}
  {
    var all := changes + [c];
    forall n | n in Numbers(all) ensures n in Numbers(changes) + {c.number} {
      var k :| 0 <= k < |all| && all[k].number == n;
      if k < |changes| { assert changes[k] == all[k]; }
    }
    forall n | n in Numbers(changes) ensures n in Numbers(all) {
      var k :| 0 <= k < |changes| && changes[k].number == n;
      assert all[k] == changes[k];
    }
    assert all[|changes|] == c;
  }

  lemma ChangeNumbersAppend(mods: seq<Modification>, m: Modification)
    ensures ChangeNumbers(mods + [m]) == ChangeNumbers(mods) + {m.changeNumber}
  {
    var all := mods + [m];
    forall n | n in ChangeNumbers(all) ensures n in ChangeNumbers(mods) + {m.changeNumber} {
      var k :| 0 <= k < |all| && all[k].changeNumber == n;
      if k < |mods| { assert mods[k] == all[k]; }
    }
    forall n | n in ChangeNumbers(mods) ensures n in ChangeNumbers(all) {
      var k :| 0 <= k < |mods| && mods[k].changeNumber == n;
      assert all[k] == mods[k];
    }
    assert all[|mods|] == m;
  }

  lemma FirstIndexOfPrefix(mods: seq<Modification>, m: Modification, n: string)
    requires n in ChangeNumbers(mods)
    ensures n in ChangeNumbers(mods + [m]) && FirstIndex(mods + [m], n) == FirstIndex(mods, n)
  {
    ChangeNumbersAppend(mods, m);
    var i := FirstIndex(mods, n);
    assert (mods + [m])[i] == mods[i];
    var i' := FirstIndex(mods + [m], n);
    assert i' <= i;
    assert mods[i'] == (mods + [m])[i'];
  }

  lemma FirstIndexOfLast(mods: seq<Modification>, m: Modification)
    requires m.changeNumber !in ChangeNumbers(mods)
    ensures m.changeNumber in ChangeNumbers(mods + [m]) && FirstIndex(mods + [m], m.changeNumber) == |mods|
  {
    ChangeNumbersAppend(mods, m);
    assert (mods + [m])[|mods|] == m;
    var i' := FirstIndex(mods + [m], m.changeNumber);
    assert i' <= |mods|;
  }

  /** ResolveChanges keeps exactly the change numbers of its input. */
  lemma {:induction false} DistinctCoversInput(mods: seq<Modification>)
    ensures Numbers(Distinct(mods)) == ChangeNumbers(mods)
  {
    if mods != [] {
      var init := mods[..|mods| - 1];
      var m := mods[|mods| - 1];
      assert mods == init + [m];
      DistinctCoversInput(init);
      ChangeNumbersAppend(init, m);
      if m.changeNumber !in Numbers(Distinct(init)) {
        NumbersAppend(Distinct(init), FromModification(m));
      }
    }
  }

  /** ResolveChanges keeps each change number once. */
  lemma {:induction false} DistinctHasNoDuplicates(mods: seq<Modification>)
    ensures forall i, j :: 0 <= i < j < |Distinct(mods)| ==> Distinct(mods)[i].number != Distinct(mods)[j].number
  {
    if mods != [] {
      var init := mods[..|mods| - 1];
      var m := mods[|mods| - 1];
      var prior := Distinct(init);
      DistinctHasNoDuplicates(init);
      if m.changeNumber !in Numbers(prior) {
        var d := Distinct(mods);
        forall i, j | 0 <= i < j < |d| ensures d[i].number != d[j].number {
          if j == |prior| {
            assert d[i] == prior[i];
            assert prior[i].number in Numbers(prior);
          } else {
            assert d[i] == prior[i] && d[j] == prior[j];
          }
        }
      }
    }
  }

  /** Each retained record is the copy of the first modification carrying its
      number: later duplicates are ignored. */
  lemma {:induction false} DistinctKeepsFirst(mods: seq<Modification>)
    ensures forall k :: 0 <= k < |Distinct(mods)| ==>
              Distinct(mods)[k].number in ChangeNumbers(mods) &&
              Distinct(mods)[k] == FromModification(mods[FirstIndex(mods, Distinct(mods)[k].number)])
  {
    if mods != [] {
      var init := mods[..|mods| - 1];
      var m := mods[|mods| - 1];
      assert mods == init + [m];
      var prior := Distinct(init);
      var d := Distinct(mods);
      DistinctKeepsFirst(init);
      forall k | 0 <= k < |prior|
        ensures prior[k].number in ChangeNumbers(mods)
        ensures FirstIndex(mods, prior[k].number) == FirstIndex(init, prior[k].number)
      {
        FirstIndexOfPrefix(init, m, prior[k].number);
      }
      if m.changeNumber !in Numbers(prior) {
        DistinctCoversInput(init);
        FirstIndexOfLast(init, m);
        assert d == prior + [FromModification(m)];
        assert d[|prior|] == FromModification(mods[|init|]);
      }
    }
  }

  /** The records come in the order in which their numbers first occur. */
  lemma {:induction false} DistinctInFirstOrder(mods: seq<Modification>)
    ensures forall i, j :: 0 <= i < j < |Distinct(mods)| ==>
              Distinct(mods)[i].number in ChangeNumbers(mods) && Distinct(mods)[j].number in ChangeNumbers(mods) &&
              FirstIndex(mods, Distinct(mods)[i].number) < FirstIndex(mods, Distinct(mods)[j].number)
  {
    if mods != [] {
      var init := mods[..|mods| - 1];
      var m := mods[|mods| - 1];
      assert mods == init + [m];
      var prior := Distinct(init);
      var d := Distinct(mods);
      DistinctInFirstOrder(init);
      DistinctKeepsFirst(init);
      forall k | 0 <= k < |prior|
        ensures prior[k].number in ChangeNumbers(mods)
        ensures FirstIndex(mods, prior[k].number) == FirstIndex(init, prior[k].number) < |init|
      {
        FirstIndexOfPrefix(init, m, prior[k].number);
      }
      if m.changeNumber !in Numbers(prior) {
        DistinctCoversInput(init);
        FirstIndexOfLast(init, m);
        assert d == prior + [FromModification(m)];
      } else {
        assert d == prior;
      }
      forall i, j | 0 <= i < j < |d|
        ensures d[i].number in ChangeNumbers(mods) && d[j].number in ChangeNumbers(mods) &&
                FirstIndex(mods, d[i].number) < FirstIndex(mods, d[j].number)
      {
        assert d[i] == prior[i];
        if j < |prior| {
          assert d[j] == prior[j];
          assert FirstIndex(init, prior[i].number) < FirstIndex(init, prior[j].number);
        } else {
          assert d[j].number == m.changeNumber;
        }
      }
    } else {
      assert Distinct(mods) == [];
    }
  }

  /** ResolveChanges: the foreach over the modifications fills a dictionary keyed
      by change number and returns its values. Dictionary.Values is taken to
      enumerate in insertion order, which is what .NET does in practice for a
      dictionary that is only ever added to. */
  method ResolveChanges(mods: seq<Modification>) returns (changes: seq<ChangeInfo>)
    ensures changes == Distinct(mods)
  {
    changes := [];
    var keys: set<string> := {};
    var i := 0;
    while i < |mods|
      invariant 0 <= i <= |mods|
      invariant changes == Distinct(mods[..i])
      invariant keys == Numbers(changes)
    {
      var mod := mods[i];
      assert mods[..i + 1][..i] == mods[..i];
      if mod.changeNumber !in keys {
        NumbersAppend(changes, FromModification(mod));
        changes := changes + [FromModification(mod)];
        keys := keys + {mod.changeNumber};
      }
      i := i + 1;
    }
    assert mods[..|mods|] == mods;
  }

  /** One change's contribution to the description: "{0}: {1}<br>" with the user and the comment. */
  function Line(c: ChangeInfo): string {
    c.user + ": " + c.comment + "<br>"
  }

  /** The description the StringBuilder holds after appending the lines of changes, in order. */
  function Description(changes: seq<ChangeInfo>): string {
    if changes == [] then ""
    else Description(changes[..|changes| - 1]) + Line(changes[|changes| - 1])
  }

  /** Appending a change appends its line. */
  lemma DescriptionSnoc(changes: seq<ChangeInfo>, c: ChangeInfo)
    ensures Description(changes + [c]) == Description(changes) + Line(c)
  {
    assert (changes + [c])[..|changes|] == changes;
  }

  lemma {:induction false} DescriptionAppend(a: seq<ChangeInfo>, b: seq<ChangeInfo>)
    ensures Description(a + b) == Description(a) + Description(b)
    decreases |b|
  {
    if b == [] {
      assert a + b == a;
    } else {
      var b', last := b[..|b| - 1], b[|b| - 1];
      assert a + b == (a + b') + [last];
      assert b == b' + [last];
      DescriptionAppend(a, b');
      DescriptionSnoc(a + b', last);
      DescriptionSnoc(b', last);
    }
  }

  /** The description is the in-order concatenation of the lines: the line of
      the k-th change sits between the lines of the changes before it and those
      after it. */
  lemma {:induction false} DescriptionSplit(changes: seq<ChangeInfo>, k: nat)
    requires k < |changes|
    ensures Description(changes) == Description(changes[..k]) + Line(changes[k]) + Description(changes[k + 1..])
  {
    var before, after := changes[..k], changes[k + 1..];
    var upTo := changes[..k + 1];
    assert changes == upTo + after;
    DescriptionAppend(upTo, after);
    assert upTo[..|upTo| - 1] == before;
    assert Description(upTo) == Description(before) + Line(changes[k]);
  }

  /** GetModificationDescription: a StringBuilder loop over the changes. */
  method GetModificationDescription(changes: seq<ChangeInfo>) returns (r: string)
    ensures r == Description(changes)
    ensures changes == [] <==> r == ""
  {
    r := "";
    var i := 0;
    while i < |changes|
      invariant 0 <= i <= |changes|
      invariant r == Description(changes[..i])
    {
      assert changes[..i + 1][..i] == changes[..i];
      r := r + Line(changes[i]);
      i := i + 1;
    }
    assert changes[..|changes|] == changes;
    if changes != [] {
      assert |Line(changes[|changes| - 1])| > 0;
    }
  }
}
