/**
  The prompt builders: the quick trip wizard, the packing-list generator and
  the four suggested-question chips. Each turns form input into the text of
  one user message. Dates, budget, season, companions and style arrive from
  select or date widgets and are opaque strings here.
 */
module Prompts {
  import opened Wrappers
  import opened Text

  /** The quick trip wizard form. */
  datatype WizardRequest = WizardRequest(
    destination: string,
    start: string,
    days: nat,
    budget: string,
    interests: seq<string>)

  /** The packing checklist form. */
  datatype PackRequest = PackRequest(
    season: string,
    companions: string,
    style: string,
    activities: seq<string>)

  /** Shown in the wizard prompt when no interest is selected. */
  const NoInterests: string := "미선택"

  /** Shown in the packing prompt when no activity is selected. */
  const PlainSightseeing: string := "일반 관광"

  const WizardTitle: string := "퀵 트립 위저드 요청:\n"

  const WizardInstructions: string :=
    "요청사항:\n"
    + "1) 하루 단위(아침/점심/오후/저녁)로 동선이 자연스럽게 이어지도록 2안 이상 비교 제안\n"
    + "2) 이동시간/티켓 이슈/혼잡시간 등 현실 팁 포함\n"
    + "3) 한국어 → 영어 요약 순서로 작성\n"

  const PackIntro: string :=
    "아래 조건에 맞는 패킹 체크리스트를 만들어줘. 한국어 본문 뒤에 영어 요약도 추가해줘.\n"

  const PackLayout: string :=
    "구성: 필수 / 선택 / 건강/의약 / 전자기기 / 서류 / 그 밖의 팁으로 나눠 표 형태로 간결하게."

  /** The suggested questions, one per chip button. */
  const Chips: seq<string> := [
    "오사카 3박4일 맛집 + 쇼핑 동선 짜줘",
    "혼자 파리 2박3일, 예산 70만원으로 핵심만",
    "부모님 모시고 도쿄, 걷기 적은 코스 추천",
    "제주도 렌터카 없이 1박2일 대중교통 코스"
  ]

  /** One bullet line of a prompt, `- name: value` and a newline. */
  function Field(name: string, value: string): string
  {
    "- " + name + ": " + value + "\n"
  }

  /** The selections joined by ", ", or `fallback` when nothing is selected. */
  function Selection(selected: seq<string>, fallback: string): string
  {
    if |selected| > 0 then Join(selected, ", ") else fallback
  }

  /** The lines of the wizard prompt, in order, as the f-string lays them out. */
  function WizardLines(req: WizardRequest): seq<string>
  {
    [ WizardTitle,
      Field("여행지", req.destination),
      Field("출발일", req.start),
      Field("일수", Decimal(req.days) + "일"),
      Field("예산", req.budget),
      Field("관심사", Selection(req.interests, NoInterests)),
      "\n",
      WizardInstructions ]
  }

  /**
    The wizard prompt, or None when the destination is empty: the form then
    only shows a warning and nothing is sent.
   */
  function WizardPrompt(req: WizardRequest): (r: Option<string>)
    ensures r.None? <==> req.destination == ""
  {
    if req.destination == "" then None else Some(Join(WizardLines(req), ""))
  }

  /** The lines of the packing prompt, in order. */
  function PackLines(req: PackRequest): seq<string>
  {
    [ PackIntro,
      Field("시즌", req.season),
      Field("동행", req.companions),
      Field("스타일", req.style),
      Field("활동", Selection(req.activities, PlainSightseeing)),
      PackLayout ]
  }

  /** The packing prompt; every input is accepted. */
  function PackPrompt(req: PackRequest): string
  {
    Join(PackLines(req), "")
  }

  lemma FieldContainsValue(name: string, value: string)
    ensures Contains(Field(name, value), value)
  {
    ContainsMiddle("- " + name + ": ", value, "\n");
  }

  /** Every selected item appears in the line that lists the selection. */
  lemma SelectionLineContainsEach(name: string, selected: seq<string>, fallback: string, k: nat)
    requires k < |selected|
    ensures Contains(Field(name, Selection(selected, fallback)), selected[k])
  {
    JoinContainsEach(selected, ", ", k);
    FieldContainsValue(name, Selection(selected, fallback));
    ContainsTransitive(Field(name, Selection(selected, fallback)), Selection(selected, fallback), selected[k]);
  }

  /**
    A wizard prompt names the destination, the day count followed by "일",
    and every selected interest; its interests line carries the ", "-join of
    the selections, or "미선택" when there are none.
   */
  lemma WizardPromptMentions(req: WizardRequest)
    requires req.destination != ""
    ensures var p := WizardPrompt(req).value;
      && Contains(p, req.destination)
      && Contains(p, Field("일수", Decimal(req.days) + "일"))
      && (|req.interests| == 0 ==> Contains(p, Field("관심사", NoInterests)))
      && (|req.interests| > 0 ==> Contains(p, Field("관심사", Join(req.interests, ", "))))
      && (forall k :: 0 <= k < |req.interests| ==> Contains(p, req.interests[k]))
  {
    var lines := WizardLines(req);
    var p := Join(lines, "");
    JoinContainsEach(lines, "", 1);
    FieldContainsValue("여행지", req.destination);
    ContainsTransitive(p, lines[1], req.destination);
    JoinContainsEach(lines, "", 3);
    JoinContainsEach(lines, "", 5);
    forall k | 0 <= k < |req.interests|
      ensures Contains(p, req.interests[k])
    {
      SelectionLineContainsEach("관심사", req.interests, NoInterests, k);
      ContainsTransitive(p, lines[5], req.interests[k]);
    }
  }

  /**
    A packing prompt has one line each for the season, the companions and the
    style, names every selected activity, and its activities line carries the
    ", "-join of the selections, or "일반 관광" when there are none.
   */
  lemma PackPromptMentions(req: PackRequest)
    ensures var p := PackPrompt(req);
      && Contains(p, Field("시즌", req.season))
      && Contains(p, Field("동행", req.companions))
      && Contains(p, Field("스타일", req.style))
      && (|req.activities| == 0 ==> Contains(p, Field("활동", PlainSightseeing)))
      && (|req.activities| > 0 ==> Contains(p, Field("활동", Join(req.activities, ", "))))
      && (forall k :: 0 <= k < |req.activities| ==> Contains(p, req.activities[k]))
  {
    var lines := PackLines(req);
    var p := Join(lines, "");
    JoinContainsEach(lines, "", 1);
    JoinContainsEach(lines, "", 2);
    JoinContainsEach(lines, "", 3);
    JoinContainsEach(lines, "", 4);
    forall k | 0 <= k < |req.activities|
      ensures Contains(p, req.activities[k])
    {
      SelectionLineContainsEach("활동", req.activities, PlainSightseeing, k);
      ContainsTransitive(p, lines[4], req.activities[k]);
    }
  }

  /** A three-day trip to Osaka with one interest: the prompt names "Osaka", "3" and the interest. */
  lemma WizardPromptExample()
    ensures var p := WizardPrompt(WizardRequest("Osaka", "2025-09-04", 3, "보통", ["food"]));
      p.Some? && Contains(p.value, "Osaka") && Contains(p.value, "3") && Contains(p.value, "food")
  {
    var req := WizardRequest("Osaka", "2025-09-04", 3, "보통", ["food"]);
    WizardPromptMentions(req);
    assert req.interests[0] == "food";
    var days := Field("일수", Decimal(3) + "일");
    assert Decimal(3) == "3";
    assert days == "- 일수: " + "3" + "일" + "\n";
    ContainsMiddle("- 일수: ", "3", "일\n");
    assert "- 일수: " + "3" + "일" + "\n" == "- 일수: " + "3" + "일\n";
    ContainsTransitive(WizardPrompt(req).value, days, "3");
  }
}
