/** The daily check-in: five fixed habit checkboxes, the list of the
    ticked ones, and the completion rate derived from it (app.py:52-67, 87). */
module Habits {

  /** The checkbox labels in declaration order. The widget keys that go
      with them only identify the widgets and are not modelled. */
  const HabitLabels: seq<string> :=
    ["🌅 기상 미션", "💧 물 마시기", "📚 공부/독서", "💪 운동하기", "💤 수면"]

  predicate Distinct(xs: seq<string>)
  {
    forall i, j :: 0 <= i < j < |xs| ==> xs[i] != xs[j]
  }

  /** Index of the first occurrence of `x` in `xs`. */
  function Position(xs: seq<string>, x: string): (p: nat)
    requires x in xs
    ensures p < |xs| && xs[p] == x && x !in xs[..p]
  {
    if xs[0] == x then 0 else 1 + Position(xs[1..], x)
  }

  /** The labels whose tick is set, in the order of `labels`. */
  function Checked(labels: seq<string>, ticks: seq<bool>): (c: seq<string>)
    requires |ticks| == |labels|
    ensures forall x :: x in c ==> x in labels
  {
    if |labels| == 0 then []
    else
      var n := |labels| - 1;
      Checked(labels[..n], ticks[..n]) + (if ticks[n] then [labels[n]] else [])
  }

  /** How many ticks are set. */
  function CountTicks(ticks: seq<bool>): nat
  {
    if |ticks| == 0 then 0
    else CountTicks(ticks[..|ticks| - 1]) + (if ticks[|ticks| - 1] then 1 else 0)
  }

  /** One label per set tick. */
  lemma {:induction false} CheckedCount(labels: seq<string>, ticks: seq<bool>)
    requires |ticks| == |labels|
    ensures |Checked(labels, ticks)| == CountTicks(ticks) <= |labels|
  {
    if |labels| > 0 {
      var n := |labels| - 1;
      CheckedCount(labels[..n], ticks[..n]);
    }
  }

  /** With distinct labels, a label is listed exactly when its tick is set. */
  lemma {:induction false} CheckedMembership(labels: seq<string>, ticks: seq<bool>, i: nat)
    requires |ticks| == |labels| && Distinct(labels) && i < |labels|
    ensures labels[i] in Checked(labels, ticks) <==> ticks[i]
  {
    var n := |labels| - 1;
    if i < n {
      CheckedMembership(labels[..n], ticks[..n], i);
    } else {
      assert labels[n] !in labels[..n];
    }
  }

  /** With distinct labels, the listed labels keep their declaration
      order strictly, so none is listed twice. */
  lemma {:induction false} CheckedInOrder(labels: seq<string>, ticks: seq<bool>)
    requires |ticks| == |labels| && Distinct(labels)
    ensures var c := Checked(labels, ticks);
            forall i, j :: 0 <= i < j < |c| ==> Position(labels, c[i]) < Position(labels, c[j])
  {
    if |labels| > 0 {
      var n := |labels| - 1;
      var pre := labels[..n];
      var c0 := Checked(pre, ticks[..n]);
      CheckedInOrder(pre, ticks[..n]);
      assert var c1 := Checked(pre, ticks[..n]); forall a, b :: 0 <= a < b < |c1| ==> Position(pre, c1[a]) < Position(pre, c1[b]);
      assert Position(labels, labels[n]) == n;
      var c := Checked(labels, ticks);
      assert c == c0 + (if ticks[n] then [labels[n]] else []);
      forall i, j | 0 <= i < j < |c| ensures Position(labels, c[i]) < Position(labels, c[j]) {
        assert c[i] == c0[i] && c[i] in pre;
        PositionInPrefix(labels, n, c[i]);
        if j < |c0| {
          assert c[j] == c0[j] && c[j] in pre;
          PositionInPrefix(labels, n, c[j]);
          assert Position(pre, c0[i]) < Position(pre, c0[j]);
        } else {
          assert c[j] == labels[n];
          assert Position(pre, c[i]) < n;
        }
      }
    }
  }

  lemma {:induction false} PositionInPrefix(xs: seq<string>, n: nat, x: string)
    requires n <= |xs| && x in xs[..n]
    ensures Position(xs, x) == Position(xs[..n], x)
  {
    if xs[0] != x {
      assert xs[1..][..n - 1] == xs[..n][1..];
      PositionInPrefix(xs[1..], n - 1, x);
    }
  }

  lemma HabitLabelsDistinct()
    ensures Distinct(HabitLabels)
  {
  }

  /** The checkbox loop (app.py:60-67): appends the label of every ticked
      box, visiting the boxes in declaration order. */
  method CollectChecked(ticks: seq<bool>) returns (checked: seq<string>)
    requires |ticks| == |HabitLabels|
    ensures checked == Checked(HabitLabels, ticks)
    ensures |checked| == CountTicks(ticks) <= |HabitLabels|
    ensures forall i :: 0 <= i < |HabitLabels| ==> (HabitLabels[i] in checked <==> ticks[i])
    ensures forall i, j :: 0 <= i < j < |checked| ==>
      Position(HabitLabels, checked[i]) < Position(HabitLabels, checked[j])
  {
    checked := [];
    for i := 0 to |HabitLabels|
      invariant checked == Checked(HabitLabels[..i], ticks[..i])
    {
      assert HabitLabels[..i + 1][..i] == HabitLabels[..i];
      assert ticks[..i + 1][..i] == ticks[..i];
      if ticks[i] {
        checked := checked + [HabitLabels[i]];
      }
    }
    assert HabitLabels[..|HabitLabels|] == HabitLabels;
    assert ticks[..|ticks|] == ticks;
    HabitLabelsDistinct();
    CheckedCount(HabitLabels, ticks);
    CheckedInOrder(HabitLabels, ticks);
    forall i | 0 <= i < |HabitLabels| ensures HabitLabels[i] in checked <==> ticks[i] {
      CheckedMembership(HabitLabels, ticks, i);
    }
  }

  /** `int(len(checked_habits) / 5 * 100)` (app.py:87). For at most five
      habits the floating-point product is exact, so integer arithmetic
      gives the same value. */
  function CompletionRate(checked: seq<string>): (rate: nat)
    requires |checked| <= |HabitLabels|
    ensures rate == 20 * |checked|
    ensures rate <= 100
  {
    |checked| * 100 / 5
  }

  /** The rate reaches the 60 % unlock threshold exactly when three or
      more habits are ticked. */
  lemma UnlockNeedsThreeHabits(checked: seq<string>)
    requires |checked| <= |HabitLabels|
    ensures CompletionRate(checked) >= 60 <==> |checked| >= 3
  {
  }
}
