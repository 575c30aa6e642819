/** The attention verdict and the planner result shaping of AIGuardian
    (core/ai.py). Every language-model call is replaced by its outcome,
    which the caller passes in. */
module Guardian {
  import opened Common
  import opened Text
  import Config

  /** A task profile: the parsed JSON object, field name to list of strings. */
  type Profile = map<string, seq<string>>

  /** A verdict of judge: is the user distracted, and why. */
  datatype Verdict = Verdict(distracted: bool, reason: string)

  /** The outcome of the judge call to the model: the call or its JSON parse
      failed, or it gave an object whose two fields may be missing. */
  datatype JudgeReply = CallFailed | Parsed(isDistracted: Option<bool>, reason: Option<string>)

  /** The outcome of the planning call: failure, or an object whose "tasks"
      and "steps" lists may be missing. */
  datatype PlanReply = PlanFailed | PlanParsed(tasks: Option<seq<Task>>, steps: Option<seq<Task>>)

  const LoadingReason := "加载中..."
  const MockReason := "[模拟] 异常"
  const FallbackReason := "疑似分心"
  const DefaultReason := "注意力分散"

  /** Window/process patterns of the operating system that are never judged. */
  const SystemPatterns: seq<string> :=
    ["explorer", "searchapp", "context menu", "新标签页", "new tab", "task switcher"]

  /** Keywords of the degraded verdict used when the model call fails. */
  const FallbackKeywords: seq<string> :=
    ["video", "game", "social", "shopping", "娱乐", "游戏", "视频", "购物", "社交"]

  /** `not self.current_profile`: no profile yet, or an empty object. */
  predicate Loading(profile: Option<Profile>) {
    profile.None? || profile.value == map[]
  }

  /** profile.get(field, []) */
  function Field(p: Profile, field: string): seq<string> {
    if field in p then p[field] else []
  }

  /** The tokens the profile fast path tries, in order: allowed tools, then keywords. */
  function Tokens(p: Profile): seq<string> {
    Field(p, "allowed_tools") + Field(p, "keywords")
  }

  /** The text every pattern is matched against: (title + " " + process).lower(). */
  function Txt(window: string, process: string): string {
    Lower(window + " " + process)
  }

  predicate Matches(w: string, txt: string) {
    Contains(txt, Lower(w))
  }

  /** The first position at or after i whose token matches txt (the `for` loop
      with its early return). */
  function FirstMatchFrom(tokens: seq<string>, txt: string, i: nat): (r: Option<nat>)
    requires i <= |tokens|
    ensures r.Some? ==> i <= r.value < |tokens| && Matches(tokens[r.value], txt)
    ensures r.Some? ==> forall j :: i <= j < r.value ==> !Matches(tokens[j], txt)
    ensures r.None? <==> forall j :: i <= j < |tokens| ==> !Matches(tokens[j], txt)
    decreases |tokens| - i
  {
    if i == |tokens| then None
    else if Matches(tokens[i], txt) then Some(i)
    else FirstMatchFrom(tokens, txt, i + 1)
  }

  /** The guardian's own state: whether a model client exists, and the profile
      of the current task. MOCK_MODE is read once, at construction. */
  class AIGuardian {
    const mockMode: bool
    var hasClient: bool
    var currentProfile: Option<Profile>

    /** The model is consulted only outside mock mode and with a client. */
    predicate Live()
      reads this
    {
      !mockMode && hasClient
    }

    /** __init__: no profile yet; the client follows reload_client. */
    constructor (mockMode: bool, apiKey: Config.Value)
      ensures this.mockMode == mockMode && currentProfile == None
      ensures hasClient <==> !mockMode && Config.Truthy(apiKey)
    {
      this.mockMode := mockMode;
      hasClient := !mockMode && Config.Truthy(apiKey);
      currentProfile := None;
    }

    /** reload_client: a client exists exactly when not in mock mode and the
        configured api_key is set (truthy). */
    method ReloadClient(apiKey: Config.Value)
      modifies this
      ensures hasClient <==> !mockMode && Config.Truthy(apiKey)
      ensures currentProfile == old(currentProfile)
    {
      if !mockMode && Config.Truthy(apiKey) {
        hasClient := true;
      } else {
        hasClient := false;
      }
    }

    /** smart_planner(goal): without the model a single 25/5 step "开始 <goal>";
        with it, the reply's "tasks", else its "steps", else nothing; a failed
        call gives the empty plan. */
    function SmartPlanner(goal: string, reply: PlanReply): (r: seq<Task>)
      reads this
      ensures !Live() ==> r == [Task("开始 " + goal, 25, 5)]
      ensures Live() && reply.PlanFailed? ==> r == []
      ensures Live() && reply.PlanParsed? && reply.tasks.Some? ==> r == reply.tasks.value
      ensures Live() && reply.PlanParsed? && reply.tasks.None? ==> r == reply.steps.GetOr([])
      ensures r == [] ==> Live()
    {
      if !Live() then [Task("开始 " + goal, 25, 5)]
      else match reply
        case PlanFailed => []
        case PlanParsed(tasks, steps) => if tasks.Some? then tasks.value else steps.GetOr([])
    }

    /** create_task_profile(main_goal, sub_goal): without the model a fixed
        programming profile; with it, the parsed reply (`Some`), or three empty
        lists when the call fails (`None`). */
    method CreateTaskProfile(mainGoal: string, subGoal: string, reply: Option<Profile>)
      modifies this`currentProfile
      ensures !Live() ==> currentProfile == Some(MockProfile())
      ensures Live() && reply.None? ==> currentProfile == Some(EmptyProfile())
      ensures Live() && reply.Some? ==> currentProfile == reply
      ensures reply.None? ==> !Loading(currentProfile)
    {
      assert "keywords" in MockProfile();
      if mockMode || !hasClient {
        currentProfile := Some(MockProfile());
        return;
      }
      match reply
      case Some(p) => currentProfile := Some(p);
      case None =>
        currentProfile := Some(EmptyProfile());
        assert "keywords" in EmptyProfile();
    }

    /** judge(main_goal, sub_goal, active_window, process_name). The goals only
        shape the prompt, which is not modelled; `reply` is what the model call
        gave when it is made. */
    function Judge(mainGoal: string, subGoal: string, window: string, process: string, reply: JudgeReply): (r: Verdict)
      reads this
      // no profile yet: never distracted, whatever the window
      ensures Loading(currentProfile) ==> r == Verdict(false, LoadingReason)
      // the system allow-list wins over the profile and the model
      ensures !Loading(currentProfile) && ContainsAny(Txt(window, process), SystemPatterns)
        ==> r == Verdict(false, "System")
      // otherwise the first matching profile token is reported
      ensures !Loading(currentProfile) && !ContainsAny(Txt(window, process), SystemPatterns)
        && FirstMatchFrom(Tokens(currentProfile.value), Txt(window, process), 0).Some?
        ==> r == Verdict(false, "Matched Profile: "
               + Tokens(currentProfile.value)[FirstMatchFrom(Tokens(currentProfile.value), Txt(window, process), 0).value])
      // a distracted verdict means every fast path missed
      ensures r.distracted ==>
        && !Loading(currentProfile)
        && !ContainsAny(Txt(window, process), SystemPatterns)
        && forall w :: w in Tokens(currentProfile.value) ==> !Matches(w, Txt(window, process))
      // past the fast paths: the mock verdict, the fallback, or the model's answer with its defaults
      ensures !Loading(currentProfile) && !ContainsAny(Txt(window, process), SystemPatterns)
        && FirstMatchFrom(Tokens(currentProfile.value), Txt(window, process), 0).None?
        ==> r == if !Live() then Verdict(true, MockReason)
                 else match reply
                   case CallFailed => Verdict(ContainsAny(Txt(window, process), FallbackKeywords),
                                              if ContainsAny(Txt(window, process), FallbackKeywords) then FallbackReason else "Err")
                   case Parsed(d, why) => Verdict(d.GetOr(false), why.GetOr(DefaultReason))
    {
      if Loading(currentProfile) then Verdict(false, LoadingReason)
      else
        var txt := Txt(window, process);
        if ContainsAny(txt, SystemPatterns) then Verdict(false, "System")
        else
          var tokens := Tokens(currentProfile.value);
          match FirstMatchFrom(tokens, txt, 0)
          case Some(k) => Verdict(false, "Matched Profile: " + tokens[k])
          case None =>
            if !Live() then Verdict(true, MockReason)
            else match reply
              case Parsed(d, why) => Verdict(d.GetOr(false), why.GetOr(DefaultReason))
              case CallFailed =>
                if ContainsAny(txt, FallbackKeywords) then Verdict(true, FallbackReason)
                else Verdict(false, "Err")
    }
  }

  /** The profile used in mock mode or without a client. */
  function MockProfile(): Profile {
    map["allowed_tools" := ["python", "vscode"], "keywords" := ["code"], "categories" := ["programming"]]
  }

  /** The profile left by a failed profile call: three empty lists. */
  function EmptyProfile(): Profile {
    map["allowed_tools" := [], "keywords" := [], "categories" := []]
  }

  /** An empty token is a substring of every text: a profile holding one
      anywhere in allowed_tools ++ keywords never reports a distraction, and
      when it is the first token every window outside the system allow-list
      is accepted as "Matched Profile: ". */
  lemma EmptyTokenMatchesAll(g: AIGuardian, goal: string, step: string, window: string, process: string, reply: JudgeReply)
    requires g.currentProfile.Some?
    ensures "" in Tokens(g.currentProfile.value) ==> !g.Judge(goal, step, window, process, reply).distracted
    ensures Tokens(g.currentProfile.value) != [] && Tokens(g.currentProfile.value)[0] == ""
            ==> g.Judge(goal, step, window, process, reply)
                == if ContainsAny(Txt(window, process), SystemPatterns) then Verdict(false, "System")
                   else Verdict(false, "Matched Profile: ")
  {
    var tokens := Tokens(g.currentProfile.value);
    var txt := Txt(window, process);
    assert Lower("") == "";
    assert Matches("", txt) by { assert IsPrefix("", txt); }
    if tokens != [] && tokens[0] == "" {
      assert FirstMatchFrom(tokens, txt, 0) == Some(0);
    }
  }

  /** The failure profile has no token at all, so the profile fast path never
      matches: outside the system allow-list the verdict is the mock one
      without a client, and with one the model's answer or, when the call
      fails, the keyword fallback. */
  lemma EmptyProfileNeverMatches(g: AIGuardian, goal: string, step: string, window: string, process: string, reply: JudgeReply)
    requires g.currentProfile == Some(EmptyProfile())
    ensures !Loading(g.currentProfile)
    ensures FirstMatchFrom(Tokens(EmptyProfile()), Txt(window, process), 0).None?
    ensures !ContainsAny(Txt(window, process), SystemPatterns) && !g.Live()
            ==> g.Judge(goal, step, window, process, reply) == Verdict(true, MockReason)
    ensures !ContainsAny(Txt(window, process), SystemPatterns) && g.Live()
            ==> g.Judge(goal, step, window, process, reply)
                == match reply
                   case CallFailed =>
                     if ContainsAny(Txt(window, process), FallbackKeywords) then Verdict(true, FallbackReason)
                     else Verdict(false, "Err")
                   case Parsed(d, why) => Verdict(d.GetOr(false), why.GetOr(DefaultReason))
  {
    assert "keywords" in EmptyProfile();
    assert Tokens(EmptyProfile()) == [];
  }
}
