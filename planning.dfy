/** The plan dialog (PlanDialog and TaskCardWidget in ui/dialogs.py): the rows
    the user edits, how they are collected into tasks, the dirty check of the
    managing mode and confirmation. A row is its name field, its two spin boxes,
    its position label and whether it has a delete button. */
module PlanEditing {
  import opened Common
  import opened Text

  /** PLANNING: a fresh plan (rows can be added and deleted); MANAGING: the
      running queue (rows can only be edited). */
  datatype Mode = Planning | Managing

  /** One TaskCardWidget. `number` is the position shown as "步骤 n" (None while
      it still reads "步骤 ?"). */
  datatype Card = Card(name: string, duration: int, brk: int, number: Option<int>, deletable: bool)

  const MinDuration := 1
  const MaxDuration := 180
  const MinBreak := 1
  const MaxBreak := 60

  /** The row add_task_item creates when it is given no data. */
  const DefaultTask := Task("", 25, 5)

  /** QSpinBox.setValue: a value outside the box's range is clamped to it. */
  function Clamp(v: int, lo: int, hi: int): (r: int)
    requires lo <= hi
    ensures lo <= r <= hi
    ensures lo <= v <= hi ==> r == v
    ensures v < lo ==> r == lo
    ensures v > hi ==> r == hi
  {
    if v < lo then lo else if v > hi then hi else v
  }

  /** The spin boxes hold 1..180 focus minutes and 1..60 break minutes. */
  predicate InRange(c: Card) {
    MinDuration <= c.duration <= MaxDuration && MinBreak <= c.brk <= MaxBreak
  }

  /** The card TaskCardWidget builds for add_task_item(data); missing data
      gives the default row. */
  function NewCard(data: Option<Task>, mode: Mode): (c: Card)
    ensures InRange(c) && c.number == None && (c.deletable <==> mode == Planning)
    ensures c.name == data.GetOr(DefaultTask).step
    ensures c.duration == Clamp(data.GetOr(DefaultTask).duration, MinDuration, MaxDuration)
    ensures c.brk == Clamp(data.GetOr(DefaultTask).brk, MinBreak, MaxBreak)
    ensures data.None? ==> c.name == "" && c.duration == 25 && c.brk == 5
  {
    var t := data.GetOr(DefaultTask);
    Card(t.step, Clamp(t.duration, MinDuration, MaxDuration), Clamp(t.brk, MinBreak, MaxBreak), None, mode == Planning)
  }

  /** Every row numbered by its 1-based position. */
  function Relabeled(cards: seq<Card>): (r: seq<Card>)
    ensures |r| == |cards|
    ensures forall i :: 0 <= i < |r| ==> r[i] == cards[i].(number := Some(i + 1))
  {
    seq(|cards|, i requires 0 <= i < |cards| => cards[i].(number := Some(i + 1)))
  }

  /** What one row contributes to collect_data: its stripped name and spin
      values, or nothing when the stripped name is empty. */
  function RowTask(c: Card): Option<Task> {
    var name := Strip(c.name);
    if name == [] then None else Some(Task(name, c.duration, c.brk))
  }

  function AsSeq(o: Option<Task>): seq<Task> {
    if o.Some? then [o.value] else []
  }

  /** The concatenated contributions of the rows, in row order. */
  function CollectWith(row: Card -> seq<Task>, cards: seq<Card>): seq<Task>
    decreases |cards|
  {
    if cards == [] then []
    else CollectWith(row, cards[..|cards| - 1]) + row(cards[|cards| - 1])
  }

  function Row(c: Card): seq<Task> {
    AsSeq(RowTask(c))
  }

  /** collect_data over the rows, in row order. */
  function Collected(cards: seq<Card>): seq<Task> {
    CollectWith(Row, cards)
  }

  lemma {:induction false} CollectWithAppend(row: Card -> seq<Task>, a: seq<Card>, b: seq<Card>)
    ensures CollectWith(row, a + b) == CollectWith(row, a) + CollectWith(row, b)
    decreases |b|
  {
    if b == [] {
      assert a + b == a;
    } else {
      var b' := b[..|b| - 1];
      CollectWithAppend(row, a, b');
      assert (a + b)[..|a + b| - 1] == a + b';
      assert (a + b)[|a + b| - 1] == b[|b| - 1];
    }
  }

  /** Collecting keeps row order: the tasks of a list of rows are those of its
      first part followed by those of its second part. */
  lemma CollectedAppend(a: seq<Card>, b: seq<Card>)
    ensures Collected(a + b) == Collected(a) + Collected(b)
  {
    CollectWithAppend(Row, a, b);
  }

  /** Every collected task keeps the spin-box ranges and has a stripped,
      non-empty name. */
  lemma {:induction false} CollectedInRange(cards: seq<Card>)
    requires forall i :: 0 <= i < |cards| ==> InRange(cards[i])
    ensures forall t :: t in Collected(cards) ==>
      && MinDuration <= t.duration <= MaxDuration && MinBreak <= t.brk <= MaxBreak
      && t.step != [] && !IsSpace(t.step[0]) && !IsSpace(t.step[|t.step| - 1])
    decreases |cards|
  {
    if cards != [] {
      CollectedInRange(cards[..|cards| - 1]);
      assert InRange(cards[|cards| - 1]);
    }
  }

  /** Nothing is collected exactly when every name is blank. */
  lemma {:induction false} CollectedEmpty(cards: seq<Card>)
    ensures Collected(cards) == [] <==> forall i :: 0 <= i < |cards| ==> AllSpace(cards[i].name)
    decreases |cards|
  {
    if cards != [] {
      var init := cards[..|cards| - 1];
      CollectedEmpty(init);
      if Collected(cards) == [] {
        forall i | 0 <= i < |cards| ensures AllSpace(cards[i].name) {
          if i < |init| { assert cards[i] == init[i]; }
        }
      }
      if forall i :: 0 <= i < |cards| ==> AllSpace(cards[i].name) {
        assert forall i :: 0 <= i < |init| ==> AllSpace(init[i].name) by {
          forall i | 0 <= i < |init| ensures AllSpace(init[i].name) { assert init[i] == cards[i]; }
        }
      }
    }
  }

  /** A new, unnamed row is dropped when the data is collected. */
  lemma DefaultRowDropped(cards: seq<Card>, mode: Mode)
    ensures Collected(cards + [NewCard(None, mode)]) == Collected(cards)
  {
    var c := NewCard(None, mode);
    assert (cards + [c])[..|cards|] == cards;
    assert AllSpace(c.name);
  }

  /** check_dirty's comparison: the lengths differ, or some position differs
      in step, duration or break. */
  predicate Differs(a: seq<Task>, b: seq<Task>) {
    |a| != |b| || exists i :: 0 <= i < |a| && a[i] != b[i]
  }

  /** The element-wise comparison says exactly whether the lists differ. */
  lemma DiffersIffChanged(a: seq<Task>, b: seq<Task>)
    ensures Differs(a, b) <==> a != b
  {
    if |a| == |b| && a != b {
      var i :| 0 <= i < |a| && a[i] != b[i];
    }
  }

  class PlanDialog {
    const mode: Mode
    /** The tasks passed in, as copied for the dirty check. */
    const originalTasks: seq<Task>
    /** self.tasks: replaced by the collected list on confirmation. */
    var tasks: seq<Task>
    /** The rows of the list widget, in display order. */
    var cards: seq<Card>
    /** Whether the dialog was accepted (exec() returned true). */
    var accepted: bool
    /** Whether the "update" button of the managing mode is shown. */
    var updateVisible: bool

    ghost predicate Valid()
      reads this
    {
      forall i :: 0 <= i < |cards| ==> InRange(cards[i]) && (cards[i].deletable <==> mode == Planning)
    }

    /** __init__/initUI: one row per task, numbered; delete buttons only when
        planning; the update button starts hidden. */
    constructor (tasks: seq<Task>, mode: Mode)
      ensures Valid() && this.mode == mode
      ensures this.tasks == tasks && originalTasks == tasks
      ensures !accepted && !updateVisible
      ensures |cards| == |tasks|
      ensures forall i :: 0 <= i < |cards| ==> cards[i] == NewCard(Some(tasks[i]), mode).(number := Some(i + 1))
    {
      this.mode := mode;
      originalTasks := tasks;
      this.tasks := tasks;
      cards := [];
      accepted := false;
      updateVisible := false;
      new;
      var k := 0;
      while k < |tasks|
        invariant 0 <= k <= |tasks|
        invariant Valid() && this.mode == mode && this.tasks == tasks && originalTasks == tasks
        invariant !accepted && !updateVisible
        invariant |cards| == k
        invariant forall i :: 0 <= i < k ==> cards[i] == NewCard(Some(tasks[i]), mode).(number := Some(i + 1))
      {
        AddTaskItem(Some(tasks[k]));
        k := k + 1;
      }
    }

    /** add_task_item(data): a new row at the end (the default row when no data
        is given), then the rows are renumbered. */
    method AddTaskItem(data: Option<Task>)
      requires Valid()
      modifies this`cards
      ensures Valid()
      ensures cards == Relabeled(old(cards) + [NewCard(data, mode)])
    {
      cards := cards + [NewCard(data, mode)];
      DoRefreshIndices();
    }

    /** _do_refresh_indices: row i shows "步骤 i+1"; nothing else changes. */
    method DoRefreshIndices()
      requires Valid()
      modifies this`cards
      ensures Valid()
      ensures cards == Relabeled(old(cards))
    {
      var i := 0;
      while i < |cards|
        invariant 0 <= i <= |cards| == |old(cards)|
        invariant forall j :: 0 <= j < i ==> cards[j] == old(cards)[j].(number := Some(j + 1))
        invariant forall j :: i <= j < |cards| ==> cards[j] == old(cards)[j]
        invariant Valid()
      {
        cards := cards[i := cards[i].(number := Some(i + 1))];
        i := i + 1;
      }
    }

    /** TaskCardWidget.remove_self: the delete button of row k (it exists only
        when planning) removes exactly that row; the rest are renumbered. */
    method RemoveSelf(k: int)
      requires Valid() && 0 <= k < |cards| && cards[k].deletable
      modifies this`cards
      ensures Valid()
      ensures cards == Relabeled(old(cards)[..k] + old(cards)[k + 1..])
      ensures mode == Planning
    {
      cards := cards[..k] + cards[k + 1..];
      DoRefreshIndices();
    }

    /** The user edits row k: its name, and values typed into the spin boxes,
        which clamp them. When managing, every change runs check_dirty. */
    method EditCard(k: int, name: string, duration: int, brk: int)
      requires Valid() && 0 <= k < |cards|
      modifies this`cards, this`updateVisible
      ensures Valid()
      ensures cards == old(cards)[k := old(cards)[k].(name := name,
                 duration := Clamp(duration, MinDuration, MaxDuration), brk := Clamp(brk, MinBreak, MaxBreak))]
      ensures mode == Managing ==> (updateVisible <==> Collected(cards) != originalTasks)
      ensures mode == Planning ==> updateVisible == old(updateVisible)
    {
      cards := cards[k := cards[k].(name := name,
                 duration := Clamp(duration, MinDuration, MaxDuration), brk := Clamp(brk, MinBreak, MaxBreak))];
      if mode == Managing {
        CheckDirty();
        DiffersIffChanged(Collected(cards), originalTasks);
      }
    }

    /** collect_data: the rows in order, names stripped, blank names dropped. */
    method CollectData() returns (newTasks: seq<Task>)
      requires Valid()
      ensures newTasks == Collected(cards)
      ensures forall t :: t in newTasks ==> MinDuration <= t.duration <= MaxDuration && MinBreak <= t.brk <= MaxBreak
    {
      newTasks := [];
      var i := 0;
      while i < |cards|
        invariant 0 <= i <= |cards|
        invariant newTasks == Collected(cards[..i])
      {
        var stepName := Strip(cards[i].name);
        assert cards[..i + 1][..i] == cards[..i];
        if stepName != [] {
          newTasks := newTasks + [Task(stepName, cards[i].duration, cards[i].brk)];
        }
        i := i + 1;
      }
      assert cards[..i] == cards;
      CollectedInRange(cards);
    }

    /** check_dirty: only when managing; shows the update button exactly when
        the collected rows differ from the original tasks. */
    method CheckDirty()
      requires Valid()
      modifies this`updateVisible
      ensures mode == Managing ==> (updateVisible <==> Differs(Collected(cards), originalTasks))
      ensures mode != Managing ==> updateVisible == old(updateVisible)
    {
      if mode != Managing {
        return;
      }
      var isDirty := false;
      var currentData := CollectData();
      if |currentData| != |originalTasks| {
        isDirty := true;
      } else {
        var i := 0;
        while i < |currentData|
          invariant 0 <= i <= |currentData|
          invariant !isDirty
          invariant forall j :: 0 <= j < i ==> currentData[j] == originalTasks[j]
        {
          var task, org := currentData[i], originalTasks[i];
          if task.step != org.step || task.duration != org.duration || task.brk != org.brk {
            isDirty := true;
            break;
          }
          i := i + 1;
        }
      }
      updateVisible := isDirty;
    }

    /** on_confirm: with no named row the dialog stays open and keeps its
        tasks; otherwise tasks become the collected rows and it is accepted. */
    method OnConfirm()
      requires Valid()
      modifies this`tasks, this`accepted
      ensures Collected(cards) == [] ==> tasks == old(tasks) && accepted == old(accepted)
      ensures Collected(cards) != [] ==> tasks == Collected(cards) && accepted
      ensures accepted && !old(accepted) ==>
        && tasks != []
        && forall t :: t in tasks ==> MinDuration <= t.duration <= MaxDuration && MinBreak <= t.brk <= MaxBreak
    {
      var newTasks := CollectData();
      if newTasks == [] {
        return;
      }
      tasks := newTasks;
      accepted := true;
    }
  }
}
