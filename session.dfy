/** The per-session state of the chat page: the researcher's profile and the message
    history, the guarded steps that change them, and one run of the page script. */
module Session {
  import opened Transcript

  datatype Option<T> = None | Some(value: T)

  /** What the one call to the completion service in a turn gives back: the generated
      text, or a failure of any kind (transport, credentials, quota, a blocked reply). */
  datatype Completion = Success(text: string) | Failure

  /** The profile record; `name` and `field` are absent until the form is accepted. */
  datatype Profile = Profile(name: Option<string>, field: Option<string>, isInitialized: bool)

  /** The session store: each entry is absent until its initialiser has run. */
  datatype State = State(userInfo: Option<Profile>, messages: Option<seq<Message>>)

  const EmptyProfile: Profile := Profile(None, None, false)

  const SystemPrompt: string := "당신은 신경과학과 의학 분야의 전문 연구 동료입니다.\n당신의 역할은 다음과 같습니다:\n1. 연구 논의에 지적이고 협력적인 지원을 제공\n2. 관련 과학 문헌과 연구 논문을 제안\n3. 연구 아이디어를 발전시키고 개선하는 데 도움\n4. 건설적인 비평과 대안적 관점을 제시\n5. 전문적이면서도 지원적인 톤을 유지\n\n항상 다음과 같은 방식으로 응답해주세요:\n- 과학적 개념에 대한 깊은 이해를 보여주기\n- 비판적 사고와 학문적 엄격성을 장려하기\n- 구체적이고 실행 가능한 제안을 제공하기\n- 적절한 경우 관련 과학 문헌을 참조하기"

  const SystemMessage: Message := Message(System, SystemPrompt)

  /** The three fixed pieces of the personalised greeting, around the name and the field. */
  const GreetingHead: string := "안녕하세요, "
  const GreetingMiddle: string := "님. \n저는 연구 도우미 Gemini 입니다. "
  const GreetingTail: string := " 분야의 연구를 지원해 드리겠습니다.\n\n어떤 연구 주제에 대해 논의해 보고 싶으신가요? \n혹시 현재 진행 중인 연구가 있거나, 새로운 연구 아이디어를 탐색하고 싶으신지 알려주시면, \n제가 가진 전문 지식을 활용하여 지원해 드릴 수 있도록 하겠습니다. \n구체적인 질문이나 아이디어를 제시해 주시면 더욱 구체적인 도움을 드릴 수 있습니다."

  /** A profile entry as it is interpolated into text: an absent value reads "None". */
  function Show(o: Option<string>): string
  {
    match o
    case Some(s) => s
    case None => "None"
  }

  predicate Contains(s: string, t: string)
  {
    exists i, j :: 0 <= i <= j <= |s| && s[i..j] == t
  }

  function Greeting(name: string, field: string): string
  {
    GreetingHead + name + GreetingMiddle + field + GreetingTail
  }

  // ---------------------------------------------------------------------------
  // Invariant of a session

  /** A profile is either untouched or completely filled with non-empty values. */
  predicate ProfileValid(p: Profile)
  {
    if p.isInitialized then p.name.Some? && p.field.Some? && p.name.value != "" && p.field.value != ""
    else p.name.None? && p.field.None?
  }

  /** A history starts with the system prompt and holds no other system message. */
  predicate HistoryValid(ms: seq<Message>)
  {
    |ms| >= 1 && ms[0] == SystemMessage &&
    forall i :: 1 <= i < |ms| ==> ms[i].role != System
  }

  predicate Valid(s: State)
  {
    (s.userInfo.Some? ==> ProfileValid(s.userInfo.value)) &&
    (s.messages.Some? ==> s.userInfo.Some? && HistoryValid(s.messages.value))
  }

  /** The invariant between runs of the page script: besides `Valid`, a history exists
      only once the profile is initialised, and its second message is the greeting with
      that profile's name and field. */
  predicate SessionInvariant(s: State)
  {
    Valid(s) &&
    (s.messages.Some? ==>
      var p := s.userInfo.value;
      var ms := s.messages.value;
      p.isInitialized && |ms| >= 2 &&
      ms[1] == Message(Assistant, Greeting(p.name.value, p.field.value)))
  }

  // ---------------------------------------------------------------------------
  // The steps, as functions of the state before

  /** Creates the empty profile when there is none. */
  function StepInitUserInfo(s: State): State
  {
    if s.userInfo.None? then s.(userInfo := Some(EmptyProfile)) else s
  }

  /** Whether the profile form has been accepted (the page goes on to the chat). */
  function Ready(s: State): bool
    requires s.userInfo.Some?
  {
    s.userInfo.value.isInitialized
  }

  /** The profile form: shown only while the profile is not initialised, and accepted
      only when it was submitted with both fields filled in. */
  function StepSubmit(s: State, submitted: bool, name: string, field: string): State
    requires s.userInfo.Some?
  {
    if !Ready(s) && submitted && name != "" && field != ""
    then s.(userInfo := Some(Profile(Some(name), Some(field), true)))
    else s
  }

  /** The history a fresh session starts with: the system prompt, then the greeting
      when the profile is ready. */
  function FirstMessages(p: Profile): seq<Message>
  {
    [SystemMessage] +
    (if p.isInitialized then [Message(Assistant, Greeting(Show(p.name), Show(p.field)))] else [])
  }

  /** Creates the history when there is none. */
  function StepInitChatHistory(s: State): State
    requires s.userInfo.Some?
  {
    if s.messages.None? then s.(messages := Some(FirstMessages(s.userInfo.value))) else s
  }

  /** The transcript sent to the completion service during a turn: the history with
      the new user message at its end. */
  function Prompt(ms: seq<Message>, input: string): string
  {
    FormatChatHistory(ms + [Message(User, input)])
  }

  /** One turn: nothing for empty input; otherwise the user message, then the reply
      when the completion succeeded. */
  function StepTurn(s: State, input: string, outcome: Completion): State
    requires s.messages.Some?
  {
    if input == "" then s
    else
      var withUser := s.messages.value + [Message(User, input)];
      match outcome
      case Success(text) => s.(messages := Some(withUser + [Message(Assistant, text)]))
      case Failure => s.(messages := Some(withUser))
  }

  /** One run of the page script. `setupOk` says whether the completion client could
      be built; when it could not, the run halts before the history is shown. */
  function StepScript(s: State, submitted: bool, name: string, field: string,
                      setupOk: bool, input: string, outcome: Completion): State
  {
    var s1 := StepInitUserInfo(s);
    if !Ready(s1) then StepSubmit(s1, submitted, name, field)
    else
      var s2 := StepInitChatHistory(s1);
      if !setupOk then s2 else StepTurn(s2, input, outcome)
  }

  // ---------------------------------------------------------------------------
  // Lemmas

  /** The greeting mentions the researcher's name and field. */
  lemma GreetingMentions(name: string, field: string)
    ensures Contains(Greeting(name, field), name)
    ensures Contains(Greeting(name, field), field)
  {
    var g := Greeting(name, field);
    var i := |GreetingHead|;
    assert g[i..i + |name|] == name;
    var k := |GreetingHead + name + GreetingMiddle|;
    assert g[k..k + |field|] == field;
  }

  /** Profile initialisation creates the empty profile only when there is none, leaves
      the history alone, and a second call changes nothing. */
  lemma InitUserInfoIdempotent(s: State)
    ensures StepInitUserInfo(s).userInfo == if s.userInfo.None? then Some(EmptyProfile) else s.userInfo
    ensures StepInitUserInfo(s).messages == s.messages
    ensures StepInitUserInfo(StepInitUserInfo(s)) == StepInitUserInfo(s)
    ensures Valid(s) ==> Valid(StepInitUserInfo(s))
  {
  }

  /** The form changes the state exactly when the profile is not yet initialised and a
      submission brings two non-empty fields; it then fills in both and marks the
      profile initialised. */
  lemma SubmitTakesEffect(s: State, submitted: bool, name: string, field: string)
    requires s.userInfo.Some?
    ensures var r := StepSubmit(s, submitted, name, field);
      (r != s <==> !Ready(s) && submitted && name != "" && field != "") &&
      (r != s ==> r.userInfo == Some(Profile(Some(name), Some(field), true))) &&
      r.messages == s.messages
  {
  }

  /** Once the profile is initialised the form is no longer shown: the page goes on
      and the profile never changes again. */
  lemma InitializedProfileIsFinal(s: State, submitted: bool, name: string, field: string)
    requires s.userInfo.Some? && Ready(s)
    ensures StepSubmit(s, submitted, name, field) == s
    ensures StepInitUserInfo(s) == s
  {
  }

  lemma SubmitKeepsValid(s: State, submitted: bool, name: string, field: string)
    requires s.userInfo.Some? && Valid(s)
    ensures Valid(StepSubmit(s, submitted, name, field))
  {
  }

  /** History initialisation acts only when there is no history; it then starts it
      with the system prompt, followed by one assistant greeting naming the researcher
      and the field exactly when the profile is initialised. */
  lemma InitChatHistoryContents(s: State)
    requires s.userInfo.Some? && ProfileValid(s.userInfo.value)
    ensures var r := StepInitChatHistory(s);
      r.userInfo == s.userInfo && r.messages.Some? &&
      StepInitChatHistory(r) == r &&
      (s.messages.Some? ==> r == s)
    ensures s.messages.None? ==>
      var ms := StepInitChatHistory(s).messages.value;
      var p := s.userInfo.value;
      ms[0] == SystemMessage &&
      (|ms| == 2 <==> p.isInitialized) && |ms| <= 2 &&
      (p.isInitialized ==>
        ms[1].role == Assistant &&
        Contains(ms[1].content, p.name.value) && Contains(ms[1].content, p.field.value))
  {
    if s.messages.None? && s.userInfo.value.isInitialized {
      GreetingMentions(s.userInfo.value.name.value, s.userInfo.value.field.value);
    }
  }

  lemma InitChatHistoryKeepsValid(s: State)
    requires s.userInfo.Some? && Valid(s)
    ensures Valid(StepInitChatHistory(s))
  {
  }

  /** A turn only ever appends: the earlier history is a prefix of the new one. Empty
      input changes nothing; otherwise the user message comes first and is followed
      by exactly one assistant reply on success and by nothing on failure. */
  lemma TurnAppendsOnly(s: State, input: string, outcome: Completion)
    requires s.messages.Some?
    ensures var old_ := s.messages.value;
      var r := StepTurn(s, input, outcome);
      r.userInfo == s.userInfo && r.messages.Some? &&
      |old_| <= |r.messages.value| &&
      r.messages.value[..|old_|] == old_
    ensures input == "" ==> StepTurn(s, input, outcome) == s
    ensures input != "" ==>
      var old_ := s.messages.value;
      var ms := StepTurn(s, input, outcome).messages.value;
      ms[|old_|] == Message(User, input) &&
      (outcome.Failure? ==> |ms| == |old_| + 1) &&
      (outcome.Success? ==> |ms| == |old_| + 2 && ms[|old_| + 1] == Message(Assistant, outcome.text))
  {
  }

  lemma TurnKeepsValid(s: State, input: string, outcome: Completion)
    requires s.messages.Some? && Valid(s)
    ensures Valid(StepTurn(s, input, outcome))
  {
  }

  /** In a valid session the system prompt is sent: the transcript of every turn
      starts with the system prompt labelled as the assistant, and ends with the
      user's new line. */
  lemma PromptCarriesSystemPrompt(ms: seq<Message>, input: string)
    requires HistoryValid(ms)
    ensures var p := Prompt(ms, input);
      var head := AssistantLabel + ": " + SystemPrompt;
      var last := "\n" + UserLabel + ": " + input;
      |head| <= |p| && p[..|head|] == head &&
      |last| <= |p| && p[|p| - |last|..] == last
  {
    var p := Prompt(ms, input);
    FormatStartsWith(ms, [Message(User, input)]);
    assert Line(ms[0]) == AssistantLabel + ": " + SystemPrompt;
    FormatAppend(ms, Message(User, input));
    assert p == FormatChatHistory(ms) + ("\n" + UserLabel + ": " + input);
  }

  /** The transcript of a later turn extends that of an earlier one: what was sent
      before is sent again, unchanged, at the start. */
  lemma PromptExtends(s: State, input: string, outcome: Completion, next: string)
    requires s.messages.Some? && s.messages.value != [] && input != ""
    ensures var later := StepTurn(s, input, outcome).messages.value;
      var before := Prompt(s.messages.value, input);
      |before| <= |Prompt(later, next)| &&
      Prompt(later, next)[..|before|] == before
  {
    var ms := s.messages.value;
    var later := StepTurn(s, input, outcome).messages.value;
    var withUser := ms + [Message(User, input)];
    var rest := later[|withUser|..] + [Message(User, next)];
    assert later + [Message(User, next)] == withUser + rest;
    FormatStartsWith(withUser, rest);
  }

  /** In a valid history the page shows every message after the system prompt. */
  lemma DisplayedSkipsSystemPrompt(ms: seq<Message>)
    requires HistoryValid(ms)
    ensures Displayed(ms) == ms[1..]
  {
    assert ms == [ms[0]] + ms[1..];
    DisplayedConcat([ms[0]], ms[1..]);
    DisplayedNoSystem(ms[1..]);
  }

  lemma ScriptKeepsValid(s: State, submitted: bool, name: string, field: string,
                         setupOk: bool, input: string, outcome: Completion)
    requires Valid(s)
    ensures Valid(StepScript(s, submitted, name, field, setupOk, input, outcome))
  {
  }

  /** Every run of the page script keeps the session invariant: the history is only
      created after the form was accepted, so it always carries the greeting second. */
  lemma ScriptKeepsSessionInvariant(s: State, submitted: bool, name: string, field: string,
                                    setupOk: bool, input: string, outcome: Completion)
    requires SessionInvariant(s)
    ensures SessionInvariant(StepScript(s, submitted, name, field, setupOk, input, outcome))
  {
  }

  /** A new session: the first run accepts the profile form, the next run opens the
      chat with the system prompt and the greeting, and a successful turn adds the
      user message and the reply, in that order. */
  lemma FirstConversation(name: string, field: string, input: string, reply: string)
    requires name != "" && field != "" && input != ""
    ensures var s1 := StepScript(State(None, None), true, name, field, true, "", Failure);
      s1.userInfo == Some(Profile(Some(name), Some(field), true)) && s1.messages.None? &&
      var s2 := StepScript(s1, false, "", "", true, input, Success(reply));
      s2.messages.Some? &&
      var ms := s2.messages.value;
      |ms| == 4 && ms[0] == SystemMessage &&
      ms[1].role == Assistant && Contains(ms[1].content, name) && Contains(ms[1].content, field) &&
      ms[2] == Message(User, input) && ms[3] == Message(Assistant, reply)
  {
    GreetingMentions(name, field);
  }

  // ---------------------------------------------------------------------------
  // The session store as an object updated in place

  class SessionState {
    var userInfo: Option<Profile>
    var messages: Option<seq<Message>>

    function Snapshot(): State
      reads this
    {
      State(userInfo, messages)
    }

    /** A new session holds nothing. */
    constructor ()
      ensures Snapshot() == State(None, None) && Valid(Snapshot())
    {
      userInfo := None;
      messages := None;
    }

    method InitUserInfo()
      modifies this
      ensures Snapshot() == StepInitUserInfo(old(Snapshot()))
      ensures Valid(old(Snapshot())) ==> Valid(Snapshot())
    {
      if userInfo.None? {
        userInfo := Some(EmptyProfile);
      }
    }

    /** The profile form; answers whether the page may go on to the chat. */
    method GetUserInfo(submitted: bool, name: string, field: string) returns (ready: bool)
      requires userInfo.Some?
      modifies this
      ensures ready == Ready(old(Snapshot()))
      ensures Snapshot() == StepSubmit(old(Snapshot()), submitted, name, field)
      ensures Valid(old(Snapshot())) ==> Valid(Snapshot())
    {
      if !userInfo.value.isInitialized {
        if submitted && name != "" && field != "" {
          var p := userInfo.value;
          p := p.(name := Some(name));
          p := p.(field := Some(field));
          p := p.(isInitialized := true);
          userInfo := Some(p);
        }
        return false;
      }
      return true;
    }

    method InitChatHistory()
      requires userInfo.Some?
      modifies this
      ensures Snapshot() == StepInitChatHistory(old(Snapshot()))
      ensures Valid(old(Snapshot())) ==> Valid(Snapshot())
    {
      if messages.None? {
        messages := Some([SystemMessage]);
        var p := userInfo.value;
        if p.isInitialized {
          var welcome := Greeting(Show(p.name), Show(p.field));
          messages := Some(messages.value + [Message(Assistant, welcome)]);
        }
        assert messages.value == FirstMessages(p);
      }
    }

    /** The messages the page shows, in the order it shows them. */
    method DisplayChatHistory() returns (shown: seq<Message>)
      requires messages.Some?
      ensures shown == Displayed(messages.value)
    {
      var ms := messages.value;
      shown := [];
      for i := 0 to |ms|
        invariant shown == Displayed(ms[..i])
      {
        DisplayedConcat(ms[..i], [ms[i]]);
        assert ms[..i + 1] == ms[..i] + [ms[i]];
        if ms[i].role != System {
          shown := shown + [ms[i]];
        }
      }
      assert ms[..|ms|] == ms;
    }

    /** One turn; answers the transcript sent to the completion service, if any. */
    method Turn(input: string, outcome: Completion) returns (prompt: Option<string>)
      requires messages.Some?
      modifies this
      ensures Snapshot() == StepTurn(old(Snapshot()), input, outcome)
      ensures prompt == if input == "" then None else Some(Prompt(old(messages.value), input))
      ensures Valid(old(Snapshot())) ==> Valid(Snapshot())
    {
      prompt := None;
      if input != "" {
        messages := Some(messages.value + [Message(User, input)]);
        var chatHistory := FormatChatHistory(messages.value);
        prompt := Some(chatHistory);
        match outcome
        case Success(text) =>
          messages := Some(messages.value + [Message(Assistant, text)]);
        case Failure =>
      }
    }

    /** One run of the page script: answers what the page showed of the history (none
        while the form is shown or when setup failed) and the transcript sent. */
    method RunScript(submitted: bool, name: string, field: string,
                     setupOk: bool, input: string, outcome: Completion)
      returns (shown: Option<seq<Message>>, prompt: Option<string>)
      modifies this
      ensures Snapshot() == StepScript(old(Snapshot()), submitted, name, field, setupOk, input, outcome)
      ensures Valid(old(Snapshot())) ==> Valid(Snapshot())
      ensures var s1 := StepInitUserInfo(old(Snapshot()));
        (shown.Some? <==> Ready(s1) && setupOk) &&
        (shown.Some? ==> shown.value == Displayed(StepInitChatHistory(s1).messages.value))
      ensures shown.Some? && Valid(old(Snapshot())) ==>
        shown.value == StepInitChatHistory(StepInitUserInfo(old(Snapshot()))).messages.value[1..]
      ensures prompt.Some? <==> shown.Some? && input != ""
      ensures prompt.Some? ==>
        prompt.value == Prompt(StepInitChatHistory(StepInitUserInfo(old(Snapshot()))).messages.value, input)
      ensures SessionInvariant(old(Snapshot())) ==> SessionInvariant(Snapshot())
    {
      shown, prompt := None, None;
      ghost var s0 := Snapshot();
      InitUserInfo();
      var ready := GetUserInfo(submitted, name, field);
      if !ready {
        return;
      }
      InitChatHistory();
      if !setupOk {
        return;
      }
      var history := DisplayChatHistory();
      shown := Some(history);
      if Valid(s0) {
        ScriptKeepsValid(s0, submitted, name, field, setupOk, "", outcome);
        DisplayedSkipsSystemPrompt(messages.value);
      }
      prompt := Turn(input, outcome);
      if Valid(s0) {
        ScriptKeepsValid(s0, submitted, name, field, setupOk, input, outcome);
      }
      if SessionInvariant(s0) {
        ScriptKeepsSessionInvariant(s0, submitted, name, field, setupOk, input, outcome);
      }
    }
  }
}
