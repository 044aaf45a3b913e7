/** Prompt and persona assembly for the fortune report, and the single
    chat-completion call that turns them into the report text
    (`generate_fortune_report`, app.py:136-181). */
module Report {
  import opened Wrappers
  import opened Strings
  import opened Habits
  import opened Gateways

  /** Stands in the habit field when no habit was ticked. */
  const NoHabitsMarker := "없음"

  /** Stands in the weather field when there is no reading. */
  const UnknownWeatherMarker := "알 수 없음"

  /** The tarot line when no card has been drawn. */
  const NotDrawnMarker := "타로 카드를 뽑지 않았습니다."

  /** `', '.join(habits) if habits else '없음'` (app.py:153). */
  function HabitField(habits: seq<string>): (field: string)
    ensures |habits| == 0 ==> field == NoHabitsMarker
    ensures |habits| > 0 ==> habits[0] <= field
  {
    if |habits| == 0 then NoHabitsMarker else Join(habits, ", ")
  }

  /** Every listed habit appears in the habit field. */
  lemma HabitFieldListsAll(habits: seq<string>)
    ensures forall i :: 0 <= i < |habits| ==> Contains(HabitField(habits), habits[i])
  {
    forall i | 0 <= i < |habits| ensures Contains(HabitField(habits), habits[i]) {
      JoinContains(habits, ", ", i);
    }
  }

  /** For the ticked check-in habits, the field shows the "none" marker
      exactly when nothing was ticked: every habit label starts with a
      character the marker does not start with. */
  lemma HabitFieldMarksNone(ticks: seq<bool>)
    requires |ticks| == |HabitLabels|
    ensures HabitField(Checked(HabitLabels, ticks)) == NoHabitsMarker <==> CountTicks(ticks) == 0
  {
    var habits := Checked(HabitLabels, ticks);
    CheckedCount(HabitLabels, ticks);
    if |habits| > 0 {
      var field := HabitField(habits);
      assert habits[0] in HabitLabels;
      assert field[0] == habits[0][0];
      assert field[0] != NoHabitsMarker[0];
    }
  }

  /** `weather['desc'] if weather else '알 수 없음'` (app.py:149). */
  function WeatherField(weather: Option<Weather>): (field: string)
    ensures weather.None? ==> field == UnknownWeatherMarker
    ensures weather.Some? ==> field == weather.value.desc
  {
    match weather
    case None => UnknownWeatherMarker
    case Some(w) => w.desc
  }

  /** `tarot_info` (app.py:145-147): the drawn card's name and upright
      meaning, or the "not drawn" marker. */
  function TarotLine(tarot: Option<TarotCard>): (line: string)
    ensures line == NotDrawnMarker <==> tarot.None?
  {
    match tarot
    case None => NotDrawnMarker
    case Some(card) =>
      var line := "뽑은 카드: " + card.name + "\n기본 의미: " + card.meaningUp;
      assert line[0] != NotDrawnMarker[0];
      line
  }

  /** A drawn card's name and meaning both reach the tarot line. */
  lemma TarotLineShowsCard(card: TarotCard)
    ensures Contains(TarotLine(Some(card)), card.name)
    ensures Contains(TarotLine(Some(card)), card.meaningUp)
  {
    ContainsMiddle("뽑은 카드: ", card.name, "\n기본 의미: " + card.meaningUp);
    assert "뽑은 카드: " + card.name + "\n기본 의미: " + card.meaningUp
      == "뽑은 카드: " + card.name + ("\n기본 의미: " + card.meaningUp);
    ContainsMiddle("뽑은 카드: " + card.name + "\n기본 의미: ", card.meaningUp, "");
    assert "뽑은 카드: " + card.name + "\n기본 의미: " + card.meaningUp + ""
      == "뽑은 카드: " + card.name + "\n기본 의미: " + card.meaningUp;
  }

  /** The fixed instructions after the data block (app.py:157-169). */
  const ReportFormat: string :=
    "\n" +
    "\n" +
    "    위 정보를 바탕으로 아래 형식에 맞춰 서술형 리포트를 작성해 주세요.\n" +
    "    특히 **타로 카드의 의미를 사용자의 오늘 하루 습관 및 기분과 연결하여 상세히 해석**해야 합니다.\n" +
    "\n" +
    "    [출력 형식]\n" +
    "    1. 🔮 **오늘의 영적 컨디션**: (S~F 등급과 짧은 총평)\n" +
    "    2. 🃏 **타로 정밀 해석**:\n" +
    "       - **종합 운세**: (카드가 암시하는 오늘의 흐름)\n" +
    "       - **💰 재물운**: (카드와 오늘 행동을 연관 지어 금전적 행운 예측)\n" +
    "       - **❤️ 애정/대인운**: (주변 사람과의 관계 예측)\n" +
    "    3. ⚡ **내일의 행동 지침**: (운세를 좋게 만들기 위한 구체적 행동 1가지)\n" +
    "    4. 📜 **오늘의 예언**: (스타일에 맞는 인상 깊은 한 문장)\n" +
    "    "

  /** The user prompt (app.py:151-169). `dog` is accepted, as in the
      original, and not used. */
  function Prompt(habits: seq<string>, mood: int, rate: int, weather: Option<Weather>,
                  dog: Option<string>, tarot: Option<TarotCard>): string
  {
    "\n    [사용자 데이터]\n    - 달성 습관: " + HabitField(habits)
      + " (달성률: " + IntToString(rate) + "%)\n    - 기분: " + IntToString(mood)
      + "/10\n    - 날씨: " + WeatherField(weather)
      + "\n    - " + TarotLine(tarot)
      + ReportFormat
  }

  /** Every data field reaches the prompt. */
  lemma PromptCarriesFields(habits: seq<string>, mood: int, rate: int, weather: Option<Weather>,
                            dog: Option<string>, tarot: Option<TarotCard>)
    ensures var p := Prompt(habits, mood, rate, weather, dog, tarot);
      && Contains(p, HabitField(habits))
      && Contains(p, IntToString(rate))
      && Contains(p, IntToString(mood))
      && Contains(p, WeatherField(weather))
      && Contains(p, TarotLine(tarot))
  {
    var p := Prompt(habits, mood, rate, weather, dog, tarot);
    var s0 := "\n    [사용자 데이터]\n    - 달성 습관: ";
    var h, r, m, w, t := HabitField(habits), IntToString(rate), IntToString(mood), WeatherField(weather), TarotLine(tarot);
    var s1, s2, s3, s4 := " (달성률: ", "%)\n    - 기분: ", "/10\n    - 날씨: ", "\n    - ";
    assert p == s0 + h + s1 + r + s2 + m + s3 + w + s4 + t + ReportFormat;
    ContainsEachHole(s0, h, s1, r, s2, m, s3, w, s4, t, ReportFormat);
  }

  /** Each of the five values spliced between fixed text occurs in the result. */
  lemma ContainsEachHole(s0: string, h: string, s1: string, r: string, s2: string, m: string,
                         s3: string, w: string, s4: string, t: string, s5: string)
    ensures var p := s0 + h + s1 + r + s2 + m + s3 + w + s4 + t + s5;
      Contains(p, h) && Contains(p, r) && Contains(p, m) && Contains(p, w) && Contains(p, t)
  {
    var p1 := s0 + h;
    ContainsEnd(s0, h);
    var p2 := p1 + s1;
    ContainsExtend(p1, s1);
    var p3 := p2 + r;
    ContainsEnd(p2, r);
    ContainsExtend(p2, r);
    var p4 := p3 + s2;
    ContainsExtend(p3, s2);
    var p5 := p4 + m;
    ContainsEnd(p4, m);
    ContainsExtend(p4, m);
    var p6 := p5 + s3;
    ContainsExtend(p5, s3);
    var p7 := p6 + w;
    ContainsEnd(p6, w);
    ContainsExtend(p6, w);
    var p8 := p7 + s4;
    ContainsExtend(p7, s4);
    var p9 := p8 + t;
    ContainsEnd(p8, t);
    ContainsExtend(p8, t);
    ContainsExtend(p9, s5);
  }

  /** Whatever the inputs, the prompt names every ticked habit and, when a
      card was drawn, the card's name and meaning; when data is missing
      it carries the explicit marker instead. */
  lemma PromptEmbedsData(habits: seq<string>, mood: int, rate: int, weather: Option<Weather>,
                         dog: Option<string>, tarot: Option<TarotCard>)
    ensures var p := Prompt(habits, mood, rate, weather, dog, tarot);
      && (forall i :: 0 <= i < |habits| ==> Contains(p, habits[i]))
      && (|habits| == 0 ==> Contains(p, NoHabitsMarker))
      && (weather.Some? ==> Contains(p, weather.value.desc))
      && (weather.None? ==> Contains(p, UnknownWeatherMarker))
      && (tarot.Some? ==> Contains(p, tarot.value.name) && Contains(p, tarot.value.meaningUp))
      && (tarot.None? ==> Contains(p, NotDrawnMarker))
  {
    var p := Prompt(habits, mood, rate, weather, dog, tarot);
    PromptCarriesFields(habits, mood, rate, weather, dog, tarot);
    HabitFieldListsAll(habits);
    forall i | 0 <= i < |habits| ensures Contains(p, habits[i]) {
      ContainsTransitive(p, HabitField(habits), habits[i]);
    }
    if tarot.Some? {
      TarotLineShowsCard(tarot.value);
      ContainsTransitive(p, TarotLine(tarot), tarot.value.name);
      ContainsTransitive(p, TarotLine(tarot), tarot.value.meaningUp);
    }
  }

  /** The dog breed never influences the prompt. */
  lemma PromptIgnoresDog(habits: seq<string>, mood: int, rate: int, weather: Option<Weather>,
                         dog: Option<string>, dog': Option<string>, tarot: Option<TarotCard>)
    ensures Prompt(habits, mood, rate, weather, dog, tarot) == Prompt(habits, mood, rate, weather, dog', tarot)
  {
  }

  /** The persona choices of the style selector (app.py:76-80). */
  const Styles: seq<string> := ["냉철한 예언가 👁️", "다정한 마녀 🧙‍♀️", "운명의 장난꾸러기 🃏"]

  /** The system instruction of each persona (app.py:139-143). */
  const SystemPrompts: map<string, string> := map[
    "냉철한 예언가 👁️" :=
      "당신은 미래를 꿰뚫어 보는 냉철한 예언가입니다. 듣기 좋은 말보다는 사실적이고 분석적인 어조로 운세를 해석하세요.",
    "다정한 마녀 🧙‍♀️" :=
      "당신은 숲속의 지혜롭고 다정한 마녀입니다. 타로 카드의 의미를 따뜻하게 풀어서 용기를 주세요.",
    "운명의 장난꾸러기 🃏" :=
      "당신은 수수께끼를 좋아하는 광대입니다. 유머러스하고 재치 있게 운세를 풀어주세요."
  ]

  /** The instruction used for a style the table does not know. */
  const DefaultSystemPrompt := "당신은 AI 점술가입니다."

  /** `system_prompts.get(style, ...)` (app.py:175). */
  function SystemPrompt(style: string): (instruction: string)
    ensures style in SystemPrompts ==> instruction == SystemPrompts[style]
    ensures style !in SystemPrompts ==> instruction == DefaultSystemPrompt
  {
    if style in SystemPrompts then SystemPrompts[style] else DefaultSystemPrompt
  }

  /** The table knows exactly the selectable styles, and gives each of
      them its own instruction, none of them the default one. */
  lemma PersonasDistinct()
    ensures SystemPrompts.Keys == set s | s in Styles
    ensures forall i, j :: 0 <= i < j < |Styles| ==> SystemPrompt(Styles[i]) != SystemPrompt(Styles[j])
    ensures forall i :: 0 <= i < |Styles| ==> SystemPrompt(Styles[i]) != DefaultSystemPrompt
  {
  }

  /** The model the report is requested from. */
  const ChatModel := "gpt-4o-mini"

  /** The one chat-completion request: key, model, system turn, user turn. */
  datatype ChatRequest = ChatRequest(apiKey: string, model: string, system: string, user: string)

  /** What the report becomes when the call raises (app.py:181). */
  const CrackedOrbPrefix := "운세를 점치는 중 수정 구슬에 금이 갔습니다... (오류: "

  /** The request sent and the report text shown. */
  datatype Consultation = Consultation(request: ChatRequest, report: string)

  /** `generate_fortune_report` (app.py:136-181). `reply` is what the
      chat-completion call gives for the request: the first choice's text,
      or the message of the exception it raised. */
  function GenerateFortuneReport(openaiKey: string, style: string, habits: seq<string>, mood: int, rate: int,
                                 weather: Option<Weather>, dog: Option<string>, tarot: Option<TarotCard>,
                                 reply: Result<string, string>): (c: Consultation)
    ensures c.request.system == SystemPrompt(style)
    ensures c.request.user == Prompt(habits, mood, rate, weather, dog, tarot)
    ensures c.request.apiKey == openaiKey && c.request.model == ChatModel
    ensures reply.Success? ==> c.report == reply.value
    ensures reply.Failure? ==> |c.report| > 0 && CrackedOrbPrefix <= c.report
  {
    var request := ChatRequest(openaiKey, ChatModel, SystemPrompt(style), Prompt(habits, mood, rate, weather, dog, tarot));
    match reply
    case Success(text) => Consultation(request, text)
    case Failure(message) => Consultation(request, CrackedOrbPrefix + message + ")")
  }

  /** A failed call still yields a report, and it quotes the failure. */
  lemma FailedReportQuotesError(openaiKey: string, style: string, habits: seq<string>, mood: int, rate: int,
                                weather: Option<Weather>, dog: Option<string>, tarot: Option<TarotCard>,
                                message: string)
    ensures Contains(GenerateFortuneReport(openaiKey, style, habits, mood, rate, weather, dog, tarot, Failure(message)).report, message)
  {
    ContainsMiddle(CrackedOrbPrefix, message, ")");
  }
}
