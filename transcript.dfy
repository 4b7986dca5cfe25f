/**
  The conversation transcript kept in the session: role-tagged messages in
  conversation order, seeded with one fixed system instruction and grown only
  by appending. Each user action appends a user message, hands the whole
  transcript to the completion endpoint and, when the call returns, appends
  the assistant's answer.
 */
module Transcript {
  import opened Wrappers

  datatype Role = System | User | Assistant

  datatype Message = Message(role: Role, content: string)

  /** The fixed instruction every session starts with. */
  const SystemPrompt: string :=
    "규칙:\n"
    + "1) 먼저 한국어로 설명하고, 다음 줄에 영어로도 간단히 설명해줘.\n"
    + "2) 당신은 오직 '여행' 관련 질문에만 응답해. 비여행 질문은 공손히 거절해.\n"
    + "3) 모르는 정보는 지어내지 말고, 불확실하면 추가 정보(도시/기간/예산 등)를 요청해.\n"
    + "4) 여행 준비물, 문화, 음식, 교통, 일정, 숙소, 안전, 예산 등에 대해 친절하고 실용적으로 안내해.\n"
    + "5) 한국 사용자 기준으로 팁을 제시하되, 일반화 가능한 조언으로 표현해."

  /**
    The hosted chat-completion call: given the transcript it is sent, either
    the content of the assistant's reply or None when the call raises
    (network, credential or rate-limit failure). Model name and temperature
    are passed through unchanged and are not modelled.
   */
  type Completion = seq<Message> -> Option<string>

  /**
    A transcript the session can hold: the system instruction first and
    nowhere else, and every assistant answer directly after the user message
    it answers.
   */
  predicate WellFormed(t: seq<Message>) {
    && |t| >= 1
    && t[0] == Message(System, SystemPrompt)
    && (forall i :: 1 <= i < |t| ==> t[i].role != System)
    && (forall i :: 1 <= i < |t| && t[i].role == Assistant ==> t[i - 1].role == User)
  }

  /** The transcript of a fresh or just-reset session. */
  function Seed(): (t: seq<Message>)
    ensures WellFormed(t) && |t| == 1
  {
    [Message(System, SystemPrompt)]
  }

  /** What `complete` is handed: the transcript with the new user message already on it. */
  function Sent(t: seq<Message>, prompt: string): seq<Message>
  {
    t + [Message(User, prompt)]
  }

  /**
    The transcript after one action with prompt `prompt`: the user message is
    appended first, then the completion sees the whole transcript, and only a
    successful call appends the assistant answer. A failed call leaves the
    user message unanswered; nothing is rolled back.
   */
  function Exchange(t: seq<Message>, prompt: string, complete: Completion): (r: seq<Message>)
    ensures |r| == |t| + (if complete(Sent(t, prompt)).Some? then 2 else 1)
    ensures r[..|t|] == t
    ensures r[|t|] == Message(User, prompt)
    ensures complete(Sent(t, prompt)).Some? ==>
              r[|t| + 1] == Message(Assistant, complete(Sent(t, prompt)).value)
  {
    var sent := Sent(t, prompt);
    match complete(sent)
    case Some(answer) => sent + [Message(Assistant, answer)]
    case None => sent
  }

  /** An exchange keeps the transcript well formed. */
  lemma ExchangeWellFormed(t: seq<Message>, prompt: string, complete: Completion)
    requires WellFormed(t)
    ensures WellFormed(Exchange(t, prompt, complete))
  {
  }

  /** Number of messages in `t` with role `role`. */
  function Count(t: seq<Message>, role: Role): nat
  {
    if |t| == 0 then 0
    else Count(t[..|t| - 1], role) + (if t[|t| - 1].role == role then 1 else 0)
  }

  lemma CountSnoc(t: seq<Message>, m: Message, role: Role)
    ensures Count(t + [m], role) == Count(t, role) + (if m.role == role then 1 else 0)
  {
  }

  /** An exchange adds one user message, and one assistant message exactly when the call succeeds. */
  lemma ExchangeCounts(t: seq<Message>, prompt: string, complete: Completion)
    ensures Count(Exchange(t, prompt, complete), User) == Count(t, User) + 1
    ensures Count(Exchange(t, prompt, complete), Assistant)
         == Count(t, Assistant) + (if complete(Sent(t, prompt)).Some? then 1 else 0)
    ensures Count(Exchange(t, prompt, complete), System) == Count(t, System)
  {
  }

  lemma WellFormedPrefix(t: seq<Message>, k: nat)
    requires WellFormed(t) && 1 <= k <= |t|
    ensures WellFormed(t[..k])
  {
  }

  /** In a well-formed transcript there are never more answers than questions. */
  lemma {:induction false} AnswersNeverExceedQuestions(t: seq<Message>)
    requires WellFormed(t)
    ensures Count(t, Assistant) <= Count(t, User)
    ensures Count(t, System) == 1
    decreases |t|
  {
    var n := |t|;
    if n == 1 {
      assert t[..0] == [];
    } else {
      var init, last := t[..n - 1], t[n - 1];
      assert init + [last] == t;
      WellFormedPrefix(t, n - 1);
      CountSnoc(init, last, User);
      CountSnoc(init, last, Assistant);
      CountSnoc(init, last, System);
      assert last.role != System;
      if last.role == Assistant {
        var before, asked := t[..n - 2], t[n - 2];
        assert asked.role == User && n - 2 >= 1;
        assert before + [asked] == init;
        WellFormedPrefix(t, n - 2);
        CountSnoc(before, asked, User);
        CountSnoc(before, asked, Assistant);
        CountSnoc(before, asked, System);
        AnswersNeverExceedQuestions(before);
      } else {
        AnswersNeverExceedQuestions(init);
      }
    }
  }
}
