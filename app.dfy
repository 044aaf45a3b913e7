/** One run of the Streamlit script over the session state that survives
    between runs: history seeding, the check-in, the chart rows, the
    tarot gate and the report request (app.py:13-28, 60-99, 186-232).
    Widgets are inputs; clock, random draws and web replies are
    parameters. */
module App {
  import opened Wrappers
  import opened Habits
  import opened History
  import opened Gateways
  import opened TarotGate
  import opened Report

  /** `st.session_state`: the history (absent until the first run seeds
      it) and the tarot slot. The original first sets the slot to `None`
      when it is missing; an absent slot and an empty one behave alike. */
  class Session {
    var history: Option<seq<DayRecord>>
    var tarotResult: Option<TarotCard>

    constructor ()
      ensures history.None? && tarotResult.None?
    {
      history := None;
      tarotResult := None;
    }

    /** Session initialisation (app.py:14-28): the history is seeded only
        when it is absent, and kept as it is otherwise. */
    method InitState(today: int, rates: seq<int>, moods: seq<int>)
      requires history.None? ==> SeedDraws(rates, moods)
      modifies this`history
      ensures old(history).Some? ==> history == old(history)
      ensures old(history).None? ==> history == Some(SeedRecords(today, rates, moods))
    {
      if history.None? {
        var sample := BuildSample(today, rates, moods);
        history := Some(sample);
      }
    }

    /** The chart rows (app.py:94-99): a copy of the history with today's
        row appended. The stored history is left as it is. */
    method ChartData(today: int, rate: int, mood: int) returns (chart: seq<DayRecord>)
      requires history.Some?
      ensures |chart| == |history.value| + 1
      ensures chart[..|history.value|] == history.value
      ensures chart[|history.value|] == DayRecord(today, rate, mood)
    {
      chart := history.value;
      chart := chart + [DayRecord(today, rate, mood)];
    }

    /** The tarot section (app.py:189-214): below the threshold the slot
        is cleared; above it the draw button fills an empty slot and the
        reset button empties a full one, each followed by `st.rerun()`. */
    method RunGate(rate: int, press: Press, reply: Option<TarotCard>) returns (rerun: bool)
      modifies this`tarotResult
      ensures tarotResult == GateStep(rate, old(tarotResult), press, reply)
      ensures rerun == Reruns(rate, old(tarotResult), press)
    {
      rerun := false;
      if rate >= UnlockRate {
        if tarotResult.None? {
          if press == DrawPress {
            tarotResult := Some(GetTarotCard(reply));
            rerun := true;
          }
        } else if press == ResetPress {
          tarotResult := None;
          rerun := true;
        }
      } else {
        tarotResult := None;
      }
    }
  }

  /** What the user set in this run. At most one button is pressed. */
  datatype Inputs = Inputs(today: int, ticks: seq<bool>, mood: int, city: string, style: string,
                           openaiKey: string, weatherKey: string, press: Press, askReport: bool)

  /** What the outside world answers in this run: the random draws for
      the seed, and the replies of the tarot, weather, dog and chat
      services. */
  datatype Replies = Replies(seedRates: seq<int>, seedMoods: seq<int>, tarot: Option<TarotCard>,
                             weather: Option<Weather>, dogMessage: Option<string>,
                             chat: Result<string, string>)

  /** The report section of the page. */
  datatype ReportView =
    | NotAsked
    | KeyMissing
    | Shown(weather: Option<Weather>, dog: Option<DogPartner>, consultation: Consultation)

  /** What one run computes for display. */
  datatype Screen = Screen(checked: seq<string>, rate: nat, chart: seq<DayRecord>, rerun: bool, report: ReportView)

  function BreedName(dog: Option<DogPartner>): Option<string>
  {
    match dog
    case None => None
    case Some(d) => Some(d.breed)
  }

  /** The report a run shows when the report button was pressed, given
      the slot as the tarot section left it (app.py:220-232). */
  function ReportFor(input: Inputs, checked: seq<string>, rate: int, slot: Option<TarotCard>, w: Replies): ReportView
  {
    if input.openaiKey == "" then KeyMissing
    else
      var weather := GetWeather(input.city, input.weatherKey, w.weather).result;
      var dog := GetDogImage(w.dogMessage);
      Shown(weather, dog, GenerateFortuneReport(input.openaiKey, input.style, checked, input.mood, rate,
                                                weather, BreedName(dog), slot, w.chat))
  }

  /** One top-to-bottom run of the script. A run that ends in
      `st.rerun()` stops before the report section. */
  method RunScript(s: Session, input: Inputs, w: Replies) returns (screen: Screen)
    requires |input.ticks| == |HabitLabels|
    requires s.history.None? ==> SeedDraws(w.seedRates, w.seedMoods)
    requires input.askReport ==> input.press == NoPress
    modifies s
    ensures old(s.history).Some? ==> s.history == old(s.history)
    ensures old(s.history).None? ==> s.history == Some(SeedRecords(input.today, w.seedRates, w.seedMoods))
    ensures screen.checked == Checked(HabitLabels, input.ticks)
    ensures screen.rate == 20 * CountTicks(input.ticks) <= 100
    ensures s.history.Some? && screen.chart == s.history.value + [DayRecord(input.today, screen.rate, input.mood)]
    ensures s.tarotResult == GateStep(screen.rate, old(s.tarotResult), input.press, w.tarot)
    ensures screen.rerun == Reruns(screen.rate, old(s.tarotResult), input.press)
    ensures screen.report ==
      if screen.rerun || !input.askReport then NotAsked
      else ReportFor(input, screen.checked, screen.rate, s.tarotResult, w)
  {
    s.InitState(input.today, w.seedRates, w.seedMoods);
    var checked := CollectChecked(input.ticks);
    var rate := CompletionRate(checked);
    var chart := s.ChartData(input.today, rate, input.mood);
    assert chart == s.history.value + [DayRecord(input.today, rate, input.mood)];
    var rerun := s.RunGate(rate, input.press, w.tarot);
    var report := NotAsked;
    if !rerun && input.askReport {
      report := ReportFor(input, checked, rate, s.tarotResult, w);
    }
    screen := Screen(checked, rate, chart, rerun, report);
  }

  /** With fewer than three habits ticked the slot ends up empty, and a
      report requested in that run says no card was drawn. */
  lemma LockedRunReportsNoCard(input: Inputs, checked: seq<string>, slot: Option<TarotCard>, w: Replies)
    requires |checked| < 3 && input.openaiKey != ""
    ensures var rate := CompletionRate(checked);
      var next := GateStep(rate, slot, input.press, w.tarot);
      && next.None?
      && var view := ReportFor(input, checked, rate, next, w);
         view.Shown? && Strings.Contains(view.consultation.request.user, NotDrawnMarker)
  {
    var rate := CompletionRate(checked);
    var next := GateStep(rate, slot, input.press, w.tarot);
    var view := ReportFor(input, checked, rate, next, w);
    PromptEmbedsData(checked, input.mood, rate, view.weather, BreedName(view.dog), next);
  }
}
