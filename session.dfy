/** The session and timer state machine of the FlowMate window
    (ui/main_window.py): the task queue, the current position in it, the
    countdown, the open session record, and the rules applied to monitor
    events. The database is a ghost trace of the calls made to it; the monitor
    thread and the one-second timer are ghost flags saying whether they run.
    Dialogs are replaced by their outcome: None when cancelled, Some(tasks)
    when accepted. */
module Session {
  import opened Common

  /** The logical state ("ALERT" is only a picture shown after abandoning). */
  datatype Phase = Idle | Focus | Break

  datatype Status = Completed | Abandoned

  /** A call into the session database. */
  datatype DbCall =
    | StartSession(taskName: string, minutes: int, id: int)
    | EndSession(id: int, status: Status)
    | LogDistraction(id: int, process: string, reason: string)

  /** At most one beep per this many seconds. */
  const AudioGapSeconds := 5
  /** A distraction is logged only when the whole seconds of the clock are a multiple of this. */
  const LogPeriodSeconds := 5

  /** The countdown after a confirmed edit of the queue: the entries at the
      current position are compared, and the difference of their focus minutes
      (while focusing) or break minutes (during a break) is added in seconds,
      with no clamping. A position the new list does not reach leaves it as is. */
  function AdjustedDuration(state: Phase, index: int, duration: int, oldQueue: seq<Task>, newQueue: seq<Task>): (d: int)
    requires 0 <= index < |oldQueue|
    ensures index >= |newQueue| || state == Idle ==> d == duration
    ensures index < |newQueue| && state == Focus ==> d - duration == (newQueue[index].duration - oldQueue[index].duration) * 60
    ensures index < |newQueue| && state == Break ==> d - duration == (newQueue[index].brk - oldQueue[index].brk) * 60
  {
    if index < |newQueue| then
      if state == Focus then duration + (newQueue[index].duration - oldQueue[index].duration) * 60
      else if state == Break then duration + (newQueue[index].brk - oldQueue[index].brk) * 60
      else duration
    else duration
  }

  /** The main window's session state. */
  class FlowMate {
    var state: Phase
    var taskQueue: seq<Task>
    var currentIndex: int
    /** Seconds left on the countdown. */
    var duration: int
    var currentSessionId: Option<int>
    var lastAudioTime: int
    /** The highest id the sessions table has handed out (AUTOINCREMENT). */
    var lastRowId: int
    ghost var db: seq<DbCall>
    ghost var monitorRunning: bool
    ghost var timerRunning: bool
    /** Monitor threads that were replaced while still running and never stopped. */
    ghost var strayMonitors: nat

    /** Ids handed out by the database are positive, so an open id is truthy. */
    ghost predicate IdsValid()
      reads this
    {
      0 <= lastRowId && (currentSessionId.Some? ==> 1 <= currentSessionId.value <= lastRowId)
    }

    /** The machine's invariant: the index is a position of the queue whenever
        a task is running, idle means an empty queue, focusing means an open
        session, the monitor runs only while focusing and the timer runs
        exactly while a task is running. */
    ghost predicate Valid()
      reads this
    {
      && IdsValid()
      && (state == Idle ==> taskQueue == [] && currentIndex == -1)
      && (state != Idle ==> 0 <= currentIndex < |taskQueue|)
      && (state == Focus ==> currentSessionId.Some?)
      && (monitorRunning ==> state == Focus)
      && (timerRunning <==> state != Idle)
    }

    /** __init__: idle, empty queue, index -1, no session. The source gives the
        countdown no value until a task loads; here it starts at 0, which
        nothing reads before load_next sets it. `lastRowId` is the database's
        highest session id. */
    constructor (lastRowId: nat)
      ensures Valid()
      ensures state == Idle && taskQueue == [] && currentIndex == -1 && duration == 0
      ensures currentSessionId == None && lastAudioTime == 0 && this.lastRowId == lastRowId
      ensures db == [] && !monitorRunning && !timerRunning && strayMonitors == 0
    {
      state := Idle;
      taskQueue := [];
      currentIndex := -1;
      duration := 0;
      currentSessionId := None;
      lastAudioTime := 0;
      this.lastRowId := lastRowId;
      db := [];
      monitorRunning := false;
      timerRunning := false;
      strayMonitors := 0;
    }

    /** reset: idle with an empty queue and index -1; monitor and timer stop.
        The open session id is kept. */
    method Reset()
      requires IdsValid()
      modifies this`state, this`taskQueue, this`currentIndex, this`monitorRunning, this`timerRunning
      ensures Valid()
      ensures state == Idle && taskQueue == [] && currentIndex == -1
      ensures !monitorRunning && !timerRunning
    {
      state := Idle;
      taskQueue := [];
      currentIndex := -1;
      monitorRunning := false;
      timerRunning := false;
    }

    /** load_next: the index moves on by one. Past the end of the queue the
        machine resets; otherwise it focuses on that task for its minutes,
        opens exactly one session whose id becomes the current one, restarts
        the monitor and runs the timer. */
    method LoadNext()
      requires IdsValid() && -1 <= currentIndex < |taskQueue|
      modifies this
      ensures Valid()
      ensures old(currentIndex) + 1 == |old(taskQueue)| ==>
        && state == Idle && taskQueue == [] && currentIndex == -1
        && !monitorRunning && !timerRunning
        && db == old(db) && currentSessionId == old(currentSessionId) && duration == old(duration)
        && lastRowId == old(lastRowId)
      ensures old(currentIndex) + 1 < |old(taskQueue)| ==>
        var t := old(taskQueue)[old(currentIndex) + 1];
        && currentIndex == old(currentIndex) + 1 && taskQueue == old(taskQueue)
        && state == Focus && duration == t.duration * 60
        && lastRowId == old(lastRowId) + 1 && currentSessionId == Some(lastRowId)
        && db == old(db) + [StartSession(t.step, t.duration, lastRowId)]
        && monitorRunning && timerRunning
      ensures strayMonitors == old(strayMonitors) && lastAudioTime == old(lastAudioTime)
    {
      currentIndex := currentIndex + 1;
      if currentIndex >= |taskQueue| {
        Reset();
        return;
      }
      var t := taskQueue[currentIndex];
      state := Focus;
      duration := t.duration * 60;
      lastRowId := lastRowId + 1;
      db := db + [StartSession(t.step, t.duration, lastRowId)];
      currentSessionId := Some(lastRowId);
      // the previous monitor is stopped before the new one starts
      monitorRunning := true;
      timerRunning := true;
    }

    /** start_break: the open session is closed as completed and forgotten;
        the countdown becomes the task's break minutes and the monitor stops. */
    method StartBreak()
      requires Valid() && state == Focus
      modifies this`currentSessionId, this`db, this`state, this`duration, this`monitorRunning
      ensures Valid()
      ensures state == Break && duration == taskQueue[currentIndex].brk * 60
      ensures db == old(db) + [EndSession(old(currentSessionId).value, Completed)]
      ensures currentSessionId == None && !monitorRunning
    {
      if currentSessionId.Some? {
        db := db + [EndSession(currentSessionId.value, Completed)];
        currentSessionId := None;
      }
      state := Break;
      var t := taskQueue[currentIndex];
      duration := t.brk * 60;
      monitorRunning := false;
    }

    /** abandon: an open session is closed as abandoned, then the machine
        resets; the session id itself is not cleared. */
    method Abandon()
      requires Valid()
      modifies this`db, this`state, this`taskQueue, this`currentIndex, this`monitorRunning, this`timerRunning
      ensures Valid()
      ensures state == Idle && taskQueue == [] && currentIndex == -1 && !monitorRunning && !timerRunning
      ensures db == old(db) + if old(currentSessionId).Some? then [EndSession(old(currentSessionId).value, Abandoned)] else []
      ensures currentSessionId == old(currentSessionId) && duration == old(duration)
    {
      if currentSessionId.Some? {
        db := db + [EndSession(currentSessionId.value, Abandoned)];
      }
      Reset();
    }

    /** What next() does, between the state before and the state after it: a
        focus period goes to its break, a break goes to the next task or, after
        the last one, to idle (keeping the session id and countdown as reset
        does), and idle stays idle. The beep time and the orphaned monitors
        never change. */
    twostate predicate NextTaken()
      reads this
    {
      && lastAudioTime == old(lastAudioTime) && strayMonitors == old(strayMonitors)
      && (old(state) == Idle ==> unchanged(this))
      && (old(state) == Focus ==>
        && state == Break && currentIndex == old(currentIndex) && taskQueue == old(taskQueue)
        && 0 <= currentIndex < |taskQueue| && duration == taskQueue[currentIndex].brk * 60
        && old(currentSessionId).Some?
        && db == old(db) + [EndSession(old(currentSessionId).value, Completed)]
        && currentSessionId == None && lastRowId == old(lastRowId)
        && !monitorRunning && timerRunning)
      && (old(state) == Break && old(currentIndex) + 1 == |old(taskQueue)| ==>
        && state == Idle && taskQueue == [] && currentIndex == -1
        && db == old(db) && currentSessionId == old(currentSessionId)
        && duration == old(duration) && lastRowId == old(lastRowId)
        && !monitorRunning && !timerRunning)
      && (old(state) == Break && old(currentIndex) + 1 < |old(taskQueue)| ==>
        && state == Focus && currentIndex == old(currentIndex) + 1 && taskQueue == old(taskQueue)
        && 0 <= currentIndex < |taskQueue| && duration == taskQueue[currentIndex].duration * 60
        && currentSessionId == Some(lastRowId) && lastRowId == old(lastRowId) + 1
        && db == old(db) + [StartSession(taskQueue[currentIndex].step, taskQueue[currentIndex].duration, lastRowId)]
        && monitorRunning && timerRunning)
    }

    /** next: the "done" button. */
    method Next()
      requires Valid()
      modifies this
      ensures Valid()
      ensures NextTaken()
    {
      if state == Focus {
        StartBreak();
      } else if state == Break {
        LoadNext();
      }
    }

    /** tick, once a second while the timer runs: a positive countdown goes
        down by exactly one and nothing else changes; at zero or below the
        machine moves on as with next(). From a focus period with d >= 0
        seconds left, the (d+1)-th tick therefore starts the break (TickThroughFocus). */
    method Tick()
      requires Valid() && timerRunning
      modifies this
      ensures Valid()
      ensures old(duration) > 0 ==>
        && duration == old(duration) - 1 && state == old(state)
        && taskQueue == old(taskQueue) && currentIndex == old(currentIndex)
        && currentSessionId == old(currentSessionId) && db == old(db) && lastRowId == old(lastRowId)
        && monitorRunning == old(monitorRunning) && timerRunning
        && lastAudioTime == old(lastAudioTime) && strayMonitors == old(strayMonitors)
      ensures old(duration) <= 0 ==> NextTaken()
    {
      if duration > 0 {
        duration := duration - 1;
      } else {
        Next();
      }
    }

    /** toggle_pause(checked): pausing supervision stops the monitor only; the
        timer and the countdown go on. Resuming starts a monitor when focusing
        on a non-empty queue; a monitor still running is then left running
        without a reference (counted in strayMonitors). */
    method TogglePause(checked: bool)
      requires Valid()
      modifies this`monitorRunning, this`strayMonitors
      ensures Valid()
      ensures checked ==> !monitorRunning && strayMonitors == old(strayMonitors)
      ensures !checked ==>
        && monitorRunning == (old(monitorRunning) || state == Focus)
        && strayMonitors == old(strayMonitors) + (if state == Focus && old(monitorRunning) then 1 else 0)
    {
      if checked {
        monitorRunning := false;
      } else if state == Focus && taskQueue != [] {
        if monitorRunning {
          strayMonitors := strayMonitors + 1;
        }
        monitorRunning := true;
      }
    }

    /** on_plan(tasks): an empty plan changes nothing; otherwise, when the
        plan dialog is accepted with `confirmed`, the queue becomes that list
        from its start. A session already open is not closed. */
    method OnPlan(tasks: seq<Task>, confirmed: Option<seq<Task>>)
      requires Valid()
      modifies this
      ensures Valid()
      ensures tasks == [] || confirmed.None? ==> unchanged(this)
      ensures lastAudioTime == old(lastAudioTime) && strayMonitors == old(strayMonitors)
      ensures tasks != [] && confirmed.Some? && confirmed.value == [] ==>
        && state == Idle && taskQueue == [] && currentIndex == -1 && !monitorRunning && !timerRunning
        && db == old(db) && currentSessionId == old(currentSessionId)
        && duration == old(duration) && lastRowId == old(lastRowId)
      ensures tasks != [] && confirmed.Some? && confirmed.value != [] ==>
        && state == Focus && taskQueue == confirmed.value && currentIndex == 0
        && duration == confirmed.value[0].duration * 60
        && currentSessionId == Some(lastRowId) && lastRowId == old(lastRowId) + 1
        && db == old(db) + [StartSession(confirmed.value[0].step, confirmed.value[0].duration, lastRowId)]
        && monitorRunning && timerRunning
    {
      if tasks == [] {
        return;
      }
      if confirmed.Some? {
        taskQueue := confirmed.value;
        currentIndex := -1;
        LoadNext();
      }
    }

    /** open_manage_dialog with the managing dialog's outcome, corrected so
        that the running task stays addressable. Without a queue nothing
        changes. An accepted edit that still reaches the current position
        replaces the queue and moves the countdown by the positional delta of
        AdjustedDuration, unclamped. An accepted edit that is too short is
        discarded as a whole: queue and countdown stay as they were. */
    method OpenManageDialog(edited: Option<seq<Task>>)
      requires Valid()
      modifies this`taskQueue, this`duration
      ensures Valid()
      ensures old(taskQueue) != [] && edited.Some? && currentIndex < |edited.value| ==>
        && taskQueue == edited.value
        && duration == AdjustedDuration(state, currentIndex, old(duration), old(taskQueue), edited.value)
      ensures old(taskQueue) == [] || edited.None? || currentIndex >= |edited.value| ==>
        taskQueue == old(taskQueue) && duration == old(duration)
    {
      if taskQueue == [] {
        return;
      }
      if edited.Some? && currentIndex < |edited.value| {
        var newTasks := edited.value;
        duration := AdjustedDuration(state, currentIndex, duration, taskQueue, newTasks);
        taskQueue := newTasks;
      }
    }

    /** open_manage_dialog as written: an accepted edit always replaces the
        queue; the countdown moves only when the new list reaches the current
        position. While focusing on a position the new list does not reach,
        the machine is left focusing past the end of its queue, the state in
        which the label update right after the assignment fails. */
    method ManageEditAsWritten(edited: Option<seq<Task>>)
      requires Valid()
      modifies this`taskQueue, this`duration
      ensures old(taskQueue) != [] && edited.Some? ==>
        && taskQueue == edited.value
        && duration == AdjustedDuration(state, currentIndex, old(duration), old(taskQueue), edited.value)
      ensures old(taskQueue) == [] || edited.None? ==> taskQueue == old(taskQueue) && duration == old(duration)
      ensures old(taskQueue) != [] && edited.Some? && state == Focus && currentIndex >= |edited.value|
        ==> currentIndex >= |taskQueue| && !Valid()
    {
      if taskQueue == [] {
        return;
      }
      if edited.Some? {
        var newTasks := edited.value;
        duration := AdjustedDuration(state, currentIndex, duration, taskQueue, newTasks);
        taskQueue := newTasks;
      }
    }

    /** on_mon(process, title, distracted, reason) at clock `now` (whole
        seconds): ignored unless focusing. A distraction beeps when more than
        five seconds passed since the last beep, and is logged against the open
        session only when `now` is a multiple of five. */
    method OnMon(process: string, title: string, distracted: bool, reason: string, now: int)
      requires Valid()
      modifies this`lastAudioTime, this`db
      ensures Valid()
      ensures state != Focus || !distracted ==> lastAudioTime == old(lastAudioTime) && db == old(db)
      ensures state == Focus && distracted ==>
        && lastAudioTime == (if now - old(lastAudioTime) > AudioGapSeconds then now else old(lastAudioTime))
        && db == old(db) + if currentSessionId.Some? && now % LogPeriodSeconds == 0
                           then [LogDistraction(currentSessionId.value, process, reason)] else []
    {
      if state != Focus {
        return;
      }
      if distracted {
        if now - lastAudioTime > AudioGapSeconds {
          lastAudioTime := now;
        }
        if currentSessionId.Some? && now % LogPeriodSeconds == 0 {
          db := db + [LogDistraction(currentSessionId.value, process, reason)];
        }
      }
    }
  }

  /** Two steps, focusing on the second; in the managing dialog the second
      name is cleared, so collect_data drops that row and the dialog returns
      the first task alone. As written, the window keeps focusing on position
      1 of a one-task queue. */
  method AsWrittenEditStrandsIndex() returns (state: Phase, index: int, queueLength: int)
    ensures state == Focus && index == 1 && queueLength == 1
  {
    var a, b := Task("a", 25, 5), Task("b", 25, 5);
    var m := new FlowMate(0);
    m.OnPlan([a, b], Some([a, b]));
    m.Next();
    m.Next();
    m.ManageEditAsWritten(Some([a]));
    assert !m.Valid();
    state, index, queueLength := m.state, m.currentIndex, |m.taskQueue|;
  }

  /** The timer running out a focus period: with d >= 0 seconds left, the
      first d ticks only count down and the (d+1)-th starts the break of the
      same task. Returns the number of ticks. */
  method TickThroughFocus(m: FlowMate) returns (ticks: nat)
    requires m.Valid() && m.state == Focus && m.duration >= 0
    modifies m
    ensures ticks == old(m.duration) + 1
    ensures m.Valid() && m.state == Break
    ensures m.currentIndex == old(m.currentIndex) && m.taskQueue == old(m.taskQueue)
    ensures m.duration == m.taskQueue[m.currentIndex].brk * 60
    ensures m.db == old(m.db) + [EndSession(old(m.currentSessionId).value, Completed)]
    ensures m.currentSessionId == None && !m.monitorRunning && m.timerRunning
  {
    var d := m.duration;
    ticks := 0;
    while ticks < d
      invariant 0 <= ticks <= d
      invariant m.Valid() && m.state == Focus && m.duration == d - ticks
      invariant m.currentIndex == old(m.currentIndex) && m.taskQueue == old(m.taskQueue)
      invariant m.db == old(m.db) && m.currentSessionId == old(m.currentSessionId)
    {
      m.Tick();
      ticks := ticks + 1;
    }
    m.Tick();
    ticks := ticks + 1;
  }
}
