/** How a worker process picks the thread for a unit of work, and what that leads to. */
module Dispatch {

  const THRESHOLD := 10

  /** What the scan in `Worker::schedule` keeps: the largest count so far above 10, and where it first stood. */
  function Best(counts: seq<int>): int {
    if counts == [] then THRESHOLD
    else if Best(counts[..|counts| - 1]) < counts[|counts| - 1] then counts[|counts| - 1]
    else Best(counts[..|counts| - 1])
  }

  function Selected(counts: seq<int>): (k: nat)
    ensures counts != [] ==> k < |counts|
  {
    if counts == [] then 0
    else if Best(counts[..|counts| - 1]) < counts[|counts| - 1] then |counts| - 1
    else Selected(counts[..|counts| - 1])
  }

  /** Index 0 when no count is above 10; otherwise the first position of the greatest count. */
  ghost predicate FirstGreatestAboveTen(counts: seq<int>, k: nat) {
    && k < |counts|
    && ((forall i :: 0 <= i < |counts| ==> counts[i] <= THRESHOLD) ==> k == 0)
    && ((exists i :: 0 <= i < |counts| && counts[i] > THRESHOLD) ==>
          && counts[k] > THRESHOLD
          && (forall i :: 0 <= i < |counts| ==> counts[i] <= counts[k])
          && (forall i :: 0 <= i < k ==> counts[i] < counts[k]))
  }

  lemma {:induction false} SelectedIsBusiest(counts: seq<int>)
    requires counts != []
    ensures FirstGreatestAboveTen(counts, Selected(counts))
    ensures forall i :: 0 <= i < |counts| ==> counts[i] <= Best(counts)
    ensures Best(counts) == THRESHOLD || Best(counts) == counts[Selected(counts)]
    ensures Best(counts) >= THRESHOLD
  {
    var front := counts[..|counts| - 1];
    assert forall i :: 0 <= i < |front| ==> front[i] == counts[i];
    if front != [] {
      SelectedIsBusiest(front);
      assert forall i :: 0 <= i < |front| ==> counts[i] <= Best(front);
    }
  }

  /** The same with the threshold written out. */
  lemma AboveTen(counts: seq<int>)
    requires counts != []
    ensures (forall i :: 0 <= i < |counts| ==> counts[i] <= 10) ==> Selected(counts) == 0
    ensures forall i :: 0 <= i < |counts| && counts[i] > 10 ==>
      && counts[i] <= counts[Selected(counts)]
      && (i < Selected(counts) ==> counts[i] < counts[Selected(counts)])
    ensures Selected([0, 11]) == 1 && Selected([0, 10]) == 0
  {
    SelectedIsBusiest(counts);
    assert [0, 11][..1] == [0] && [0, 10][..1] == [0];
    assert [0, 11][1] == 11 && [0, 10][1] == 10;
    assert [0][..0] == [];
  }

  ghost predicate IsLeast(counts: seq<int>, k: nat) {
    k < |counts| && forall j :: 0 <= j < |counts| ==> counts[k] <= counts[j]
  }

  ghost predicate SomeAbove(counts: seq<int>) {
    exists i :: 0 <= i < |counts| && counts[i] > THRESHOLD
  }

  ghost predicate AllEqual(counts: seq<int>) {
    forall i, j :: 0 <= i < |counts| && 0 <= j < |counts| ==> counts[i] == counts[j]
  }

  /**
   * When the comment "least busy" is true: if some count exceeds 10, only when all counts are equal; otherwise
   * only when the first thread happens to be one of the least busy.
   */
  lemma LeastBusyExactly(counts: seq<int>)
    requires counts != []
    ensures IsLeast(counts, Selected(counts)) <==> if SomeAbove(counts) then AllEqual(counts) else IsLeast(counts, 0)
  {
    SelectedIsBusiest(counts);
  }

  /** Two inputs on which it is false: past the threshold, and below it. */
  lemma BusierChosen()
    ensures Selected([11, 0]) == 0 && !IsLeast([11, 0], 0)
    ensures Selected([1, 0]) == 0 && !IsLeast([1, 0], 0)
  {
    assert [11, 0][0] == 11 && [11, 0][1] == 0 && [1, 0][0] == 1 && [1, 0][1] == 0;
  }

  /** One round of the scan. */
  lemma ScanNext(counts: seq<int>, value: int)
    ensures Best(counts + [value]) == if Best(counts) < value then value else Best(counts)
    ensures Selected(counts + [value]) == if Best(counts) < value then |counts| else Selected(counts)
  {
    assert (counts + [value])[..|counts|] == counts;
  }

  /** While only thread 0 is ever given work, thread 0 is what the scan selects. */
  lemma OnlyFirstBusy(counts: seq<int>)
    requires counts != [] && forall i :: 1 <= i < |counts| ==> counts[i] <= 0
    ensures Selected(counts) == 0
  {
    SelectedIsBusiest(counts);
  }
}
