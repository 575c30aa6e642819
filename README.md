# FlowMate focus-session engine in Dafny

FlowMate is a desktop "focus pet": the user states a goal, a language model
splits it into steps (focus minutes and break minutes each), the user edits
the plan in a dialog, and the window then counts each step down, alternates
focus and break periods, records sessions in a database and watches the
foreground window to tell whether the user is distracted.

This project models the logic of that engine:

- `session.dfy` (module `Session`): the `FlowMate` window's state machine
  (`IDLE`/`FOCUS`/`BREAK`, the task queue, the current index, the countdown,
  the open session id, the beep throttle) as a class whose methods are
  `on_plan`, `load_next`, `start_break`, `next`, `abandon`, `reset`, `tick`,
  `toggle_pause`, the queue edit of `open_manage_dialog` and `on_mon`. The
  database is a ghost trace of `start_session`/`end_session`/`log_distraction`
  calls; the monitor thread and the timer are ghost flags. `Valid()` is the
  invariant every method keeps except the as-written `ManageEditAsWritten`
  (see Findings). It says that the index is a queue position whenever a task
  runs, focusing means an open session, the live monitor runs only while
  focusing and the timer runs exactly while a task runs; monitors orphaned
  by `toggle_pause` are counted separately (`strayMonitors`).
- `guardian.dfy` (module `Guardian`): `AIGuardian` from core/ai.py, with the
  verdict of `judge` (loading, system allow-list, first matching profile
  token, mock verdict, model answer with its defaults, keyword fallback), the
  result shaping of `smart_planner`, the profile fallback of
  `create_task_profile` and the client rule of `reload_client`. Every model
  call is replaced by its outcome, passed in.
- `monitor.dfy` (module `Monitor`): one iteration of `MonitorThread.run`
  (self-exemption, five-second debounce on `last_check`), the loop over a
  sequence of iterations with `stop()` interleaved, and what it emits.
- `planning.dfy` (module `PlanEditing`): `PlanDialog` and its task cards: new
  rows, spin-box clamping, renumbering, deletion, `collect_data`,
  `check_dirty` and `on_confirm`.
- `config.dfy` (module `Config`): `ConfigManager`: defaults, then
  config.json, then `FLOWMATE_*` environment variables; `get`; `save_config`.
- `text.dfy`, `common.dfy`: Python's `lower`, substring test and `strip`, and
  the shared `Option` and `Task` types.

The queue edit of `open_manage_dialog` matches tasks by position and does
not clamp the countdown at zero; the only pause is the supervision toggle.

Inputs that stand for what the code cannot see: the clock is an integer
number of seconds passed to the methods that read it; window samples, the
verdict `judge` gives, the planner and profile replies, the content of
config.json and the environment are parameters; a dialog is its outcome
(`None` when cancelled, `Some(tasks)` when accepted).

## Model

| member | source | states |
|---|---|---|
| `Session.FlowMate.constructor` | ui/main_window.py:17-39 | starts idle with an empty queue, index -1, no session, last beep time 0, monitor and timer stopped; the countdown, unset in the source until a task loads, starts at 0 |
| `Session.FlowMate.Reset` | ui/main_window.py:317-324 | idle, empty queue, index -1, monitor and timer stopped; the open session id is kept; the invariant holds |
| `Session.FlowMate.LoadNext` | ui/main_window.py:288-300 | the index moves on by one; past the end the machine resets with no database call; otherwise it focuses for the task's minutes times 60, records exactly one start_session whose new id becomes the current id, and monitor and timer run |
| `Session.FlowMate.StartBreak` | ui/main_window.py:302-306 | closes the open session as COMPLETED (always open while focusing) and clears the id; break state with the break minutes times 60; monitor stopped |
| `Session.FlowMate.Abandon` | ui/main_window.py:308-311 | records end_session ABANDONED exactly when a session id is set, then resets; the id is not cleared |
| `Session.FlowMate.Next` | ui/main_window.py:313-315 | `NextTaken`: focus goes to its break (one COMPLETED record, id cleared, monitor off, timer on); a break goes to the next task (one new session) or, after the last, to idle keeping the session id and countdown; idle changes nothing; the beep time never changes |
| `Session.FlowMate.Tick` | ui/main_window.py:327-343 | a positive countdown drops by exactly one and every other field stays; at zero or below the step is exactly that of next() (`NextTaken`) |
| `Session.FlowMate.TogglePause` | ui/main_window.py:228-242 | pausing stops only the monitor, never the timer or countdown; resuming starts a monitor only while focusing, and a monitor still running is orphaned |
| `Session.TickThroughFocus` | ui/main_window.py:327-343 | from a focus period with d >= 0 seconds left, d ticks only count down and the (d+1)-th starts the break: one COMPLETED record, countdown break minutes times 60, same task |
| `Session.FlowMate.OnPlan` | ui/main_window.py:281-286 | an empty plan or a cancelled dialog changes nothing; an accepted non-empty list starts its first task with one new session, monitor and timer running; an accepted empty list ends idle with no database call; the beep time never changes |
| `Session.FlowMate.OpenManageDialog` | ui/main_window.py:181-217 | corrected: without a queue nothing changes; an accepted edit that reaches the current position replaces the queue and moves the countdown by the positional delta; an accepted edit too short to reach it is discarded whole (line 195 only skips the countdown change there); the invariant is kept (see Findings) |
| `Session.FlowMate.OnMon` | ui/main_window.py:352-366 | nothing unless focusing; a distraction moves the last beep time only after more than 5 seconds and is logged only with an open session at a clock that is a multiple of 5 |
| `Session.AdjustedDuration` | ui/main_window.py:194-209 | the countdown changes by exactly (new - old focus minutes) times 60 while focusing, (new - old break minutes) times 60 in a break, unclamped; unchanged when the new list does not reach the index |
| `Session.FlowMate.ManageEditAsWritten` | ui/main_window.py:190-214 | as written: an accepted edit always replaces the queue, the countdown moving only when the position is reachable; focusing on a position the new list does not reach leaves the index past the end and the invariant broken |
| `Session.AsWrittenEditStrandsIndex` | ui/main_window.py:190-214 | after the model's FlowMate is driven through OnPlan([a, b]), Next, Next, an as-written edit to [a] leaves it focusing at index 1 of a one-task queue |
| `Guardian.AIGuardian.constructor` | core/ai.py:7-10 | no profile; a client exactly when not in mock mode and the api key is set |
| `Guardian.AIGuardian.ReloadClient` | core/ai.py:12-18 | the client exists exactly when not in mock mode and the api key is truthy; the profile is untouched |
| `Guardian.AIGuardian.SmartPlanner` | core/ai.py:20-34 | without the model exactly one step "开始 goal" of 25/5; with it "tasks" before "steps", else empty; a failed call gives the empty plan, which only the model path can produce |
| `Guardian.AIGuardian.CreateTaskProfile` | core/ai.py:36-60 | mock profile without the model, the reply when it parses, three empty lists on failure, which is no longer a loading profile |
| `Guardian.AIGuardian.Judge` | core/ai.py:62-119 | loading gives (False, "加载中...") for every window; the system allow-list wins next; then the first matching token; a distracted verdict implies every fast path missed; past them the mock verdict, the model's answer with defaults False and "注意力分散", or the fallback that is distracted iff a fallback keyword occurs |
| `Guardian.FirstMatchFrom` | core/ai.py:72-73 | the position of the first token whose lower case occurs in the text, with no earlier match; none exactly when no token matches |
| `Guardian.EmptyTokenMatchesAll` | core/ai.py:72-73 | an empty token anywhere in the profile means judge is never distracted; as the first token it accepts every window the system allow-list does not catch as "Matched Profile: " |
| `Guardian.EmptyProfileNeverMatches` | core/ai.py:59-119 | the failure profile is not loading and no token of it matches; outside the system allow-list the verdict is the mock one without a client, and with one the model's answer or the keyword fallback |
| `Monitor.Rule` | core/workers.py:121-133 | exempt samples emit "FlowMate Safe" and refresh last_check; a sample is judged iff its title changed or more than 5 seconds passed; a skipped sample emits nothing and keeps last_check; the same title is re-judged only after more than 5 seconds |
| `Monitor.MonitorThread.constructor` | core/workers.py:102-107 | running, last_check (0, ""), nothing emitted |
| `Monitor.MonitorThread.Stop` | core/workers.py:139-140 | only clears the running flag |
| `Monitor.MonitorThread.Iterate` | core/workers.py:117-136 | one loop body: emits and updates last_check exactly as the rule says |
| `Monitor.MonitorThread.Run` | core/workers.py:109-137 | unsupported platform: exactly one "Platform not supported" event and no loop; otherwise iterations run up to the first one during which stop() is called, and the events are those of the rule applied in order |
| `Monitor.StopPoint` | core/workers.py:116 | no iteration starts after the one during which stop() was called |
| `Monitor.ReplayBound` | core/workers.py:116-137 | at most one event per iteration |
| `Monitor.FirstSampleJudged` | core/workers.py:107-130 | from the initial (0, "") the first non-exempt sample is judged unless its title is empty and the clock is at most 5 |
| `Monitor.UnchangedWindowIsSilent` | core/workers.py:128-133 | an unchanged non-exempt title sampled within 5 seconds of its last classification emits nothing and keeps last_check |
| `Monitor.EventsComeFromPolls` | core/workers.py:121-133 | every event carries the process and title of some polled sample and is the non-distracted "FlowMate Safe" of an exempt one or the verdict of a judged one |
| `Monitor.RunAsWritten` | core/workers.py:109-115 | as written, a supported platform emits no event at all |
| `Monitor.RuleAsWritten` | core/workers.py:128-136 | as written, only exemption events are ever emitted |
| `Monitor.AsWrittenMissesDistraction` | core/workers.py:115-131 | a distracting sample is reported by the intended loop and by neither as-written form |
| `PlanEditing.PlanDialog.constructor` | ui/dialogs.py:126-180 | one numbered row per task, delete buttons only when planning, original tasks kept for the dirty check, update button hidden |
| `PlanEditing.PlanDialog.AddTaskItem` | ui/dialogs.py:233-251 | appends one row (the default row without data) and renumbers |
| `PlanEditing.NewCard` | ui/dialogs.py:233-236 | the row shows the data's name and its minutes clamped into the spin ranges; missing data gives ("", 25, 5); a delete button exactly when planning |
| `PlanEditing.Clamp` | ui/dialogs.py:405-414 | a spin box keeps its value within its range, unchanged when already inside |
| `PlanEditing.PlanDialog.DoRefreshIndices` | ui/dialogs.py:263-268 | row i shows i + 1 and nothing else changes |
| `PlanEditing.Relabeled` | ui/dialogs.py:264-268 | row i is numbered i + 1, every other field kept |
| `PlanEditing.PlanDialog.RemoveSelf` | ui/dialogs.py:430-433 | removes exactly its own row, which has a delete button only when planning |
| `PlanEditing.PlanDialog.EditCard` | ui/dialogs.py:395-425 | a user edit changes one row, clamps the spin values, and when managing recomputes the update button |
| `PlanEditing.PlanDialog.CollectData` | ui/dialogs.py:294-308 | the collected tasks are the rows in order, names stripped, blank names dropped, within the spin ranges |
| `PlanEditing.CollectedAppend` | ui/dialogs.py:296-307 | collecting keeps row order |
| `PlanEditing.CollectedInRange` | ui/dialogs.py:297-307 | every collected task has focus minutes in [1,180], break minutes in [1,60] and a non-empty stripped name |
| `PlanEditing.CollectedEmpty` | ui/dialogs.py:297-317 | nothing is collected exactly when every name is blank |
| `PlanEditing.DefaultRowDropped` | ui/dialogs.py:235-236 | a new unnamed row is dropped by collect_data |
| `PlanEditing.PlanDialog.CheckDirty` | ui/dialogs.py:270-292 | only when managing; the update button shows exactly when the lengths or some position differ |
| `PlanEditing.DiffersIffChanged` | ui/dialogs.py:278-287 | the element-wise comparison holds exactly when the collected list differs from the original |
| `PlanEditing.PlanDialog.OnConfirm` | ui/dialogs.py:310-320 | with no named row the tasks stay and the dialog is not accepted; otherwise the tasks are the non-empty collected list and it is accepted |
| `Config.MockMode` | core/config.py:9 | mock mode exactly when FLOWMATE_MOCK_MODE is set and lower-cases to "true" |
| `Config.LoadInitialConfig` | core/config.py:28-49 | defaults overwritten by the file's keys, then by FLOWMATE_API_KEY, _BASE_URL and _MODEL when set; strict_mode overridden only when FLOWMATE_STRICT_MODE is set, as its lower case equals "true"; an unreadable file leaves the defaults |
| `Config.ConfigManager.constructor` | core/config.py:18-49 | the live settings are the resolved configuration: defaults, file keys with their file values, then the environment overrides |
| `Config.ConfigManager.Get` | core/config.py:65-66 | the stored value when present, else the caller's default unless None, else the built-in default; for a defaulted key always the stored value |
| `Config.ConfigManager.SaveConfig` | core/config.py:51-63 | afterwards get(key) returns the value; a successful write holds exactly the four persisted keys with their live values; a failure after the truncating open leaves no readable file; a failed open leaves the file |
| `Text.Lower` | core/ai.py:65 | same length, each character case-folded |
| `Text.Strip` | ui/dialogs.py:301 | empty exactly when the name is all white space, otherwise neither starts nor ends with white space |
| `Text.StripCutsEnds` | ui/dialogs.py:301 | the result is the name with a run of white space cut from each end, which with Strip's contract fixes it as str.strip() |

## Left out

- OS window inspection (`get_active_window_info`), the prompts and the
  OpenAI calls, `generate_daily_report`, the SQLite code, the sound
  generator, `core/utils.py` and `main.py`: foreign or I/O code; samples and
  model outcomes are inputs and the database is a call trace.
- Threads, signals, `QTimer` scheduling and `time.sleep`: iterations, ticks
  and monitor events are explicit method calls; the deferred renumbering of
  `refresh_indices` runs at the end of the calling method.
- Time is whole seconds: the float clock of `time.time()`, so a gap such as
  5.5 seconds, is not represented.
- `Text.Lower`: folds ASCII letters only; Python's full Unicode lower-casing
  is not modelled (the fixed patterns and keywords are ASCII or CJK).
- Replies of the model with ill-typed JSON (a non-boolean `is_distracted`, a
  list of non-strings in a profile, plan steps with missing keys or
  non-integer minutes) are not represented; plan steps are well-formed tasks.
- `Guardian.AIGuardian.CreateTaskProfile`, `Judge`, `SmartPlanner`: MOCK_MODE
  is fixed when the guardian is built instead of read at each call.
- `Monitor.MonitorThread.Run`: the monitor holds no guardian; each
  iteration's verdict is passed in, so which arguments judge is called with
  is not part of the intended loop.
- `plan` (reading the goal field and starting the planner thread),
  `open_set`, `quit_app`, toast, tray, labels, animations and the `ALERT`
  picture: presentation only.
- `Session.FlowMate.StartBreak`: the default of 5 break minutes for a task
  without a "break" key is not modelled; every queue comes from the plan
  dialog, which always sets it.
- `Session.FlowMate.Tick`: the tray tooltip that reads the current task is
  not modelled.
- `Config.Value`: floats, arrays and objects in config.json are not
  represented; the four persisted keys hold strings and a boolean.
- Reordering rows by drag and drop in the plan dialog is not modelled; only
  the renumbering it triggers is.
- `Session.FlowMate.OpenManageDialog`: the dialog's nested event loop is
  not modelled. In the source the timer keeps ticking while the dialog is
  open, so the last break can run out and reset the machine between the
  queue check and the assignment, which then installs the accepted list in
  an idle machine; the invariant that idle means an empty queue holds here
  only because timer callbacks during the dialog are left out.
- `Config.ConfigManager.SaveConfig`: a failed write leaves a truncated or
  partial config.json; the model does not keep its bytes, only that it no
  longer parses, so the next start reads no file.
- The link between the dialog classes and the window: `OnPlan` and
  `OpenManageDialog` take the dialog's outcome instead of a `PlanDialog`.

## Findings

| source | as written | input that shows it | evidently intended | confidence | as-written member | corrected member |
|---|---|---|---|---|---|---|
| core/workers.py:115 | `create_task_profile(self.user_goal)` passes one argument where core/ai.py:36 takes two; the TypeError is outside the loop's `try` and raises out of run() before the loop, so no iteration ever runs | any run on a supported platform | the profile is created and the polling loop runs | high, not executed | `Monitor.RunAsWritten`, `Monitor.AsWrittenMissesDistraction` | `Monitor.MonitorThread.Run` |
| core/workers.py:131 | `judge(self.user_goal, title, proc)` passes three arguments where core/ai.py:62 takes four; the TypeError is swallowed at line 134, so no event is emitted and last_check never moves | sample ("video", "vlc") at time 100 with a distracted verdict | the sample is judged and its verdict emitted | high, not executed | `Monitor.RuleAsWritten`, `Monitor.AsWrittenMissesDistraction` | `Monitor.Rule` |
| ui/main_window.py:190-214 | an accepted managing edit replaces the queue even when the new list no longer reaches `current_index`; while focusing, line 214 and later `start_break` (line 304) then index past the end of the queue | queue [a, b] focusing on b (index 1); clearing b's name in the managing dialog makes collect_data return [a] | the running task stays addressable after an edit (line 214 indexes it unconditionally, and the managing mode has no delete button); the corrected model discards such an edit whole, where line 195's guard only skips the countdown change | medium, not executed | `Session.FlowMate.ManageEditAsWritten`, `Session.AsWrittenEditStrandsIndex` | `Session.FlowMate.OpenManageDialog` |
