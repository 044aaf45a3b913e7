# Habit oracle: a Dafny model of the check-in, tarot gate and report logic

The application is a single Streamlit script (`app.py`): the user ticks
five daily habits and sets a mood score; a bar chart shows six seeded
demo days plus today; a tarot card can be drawn once at least 60 % of the
habits are done; and a fortune report is requested from a chat-completion
model with a prompt that combines the habits, the mood, the weather and
the card.

This project models the logic inside that script:

- `Habits`: the five fixed labels, the checkbox loop that collects the
  ticked ones (a method with a loop, proved against the filter function
  `Checked`), and the completion rate, which is always `20 * k`.
- `History`: the demo history seeded on the first run (a loop proved
  against `SeedRecords`), six days from six days ago to yesterday, oldest
  first, with values in the drawn ranges.
- `Gateways`: `get_weather`'s empty-key guard, the breed extraction from a
  dog.ceo URL (split on `/`, second-to-last piece, hyphens to spaces,
  `str.title`), and `get_tarot_card`'s fallback card.
- `TarotGate`: the gate as a function from (rate, slot, button) to the
  new slot, with its transitions stated and proved.
- `Report`: the prompt fields with their explicit markers for missing
  data, the full prompt text, the persona lookup with its default, and
  the single chat request with its failure text.
- `App`: `st.session_state` as a class `Session` whose methods seed the
  history, build the chart rows and run the gate, and one run of the
  whole script (`RunScript`) that strings them together.
- `Strings`: the Python string operations used (`join`, `split`,
  `replace`, `title`, `str(int)`), each with its own properties
  (split/join round trip, per-position rule and idempotence of `title`,
  injectivity of `str(int)`).

Web replies, random draws, the clock and the chat model's answer are
parameters: `None` stands for any failed request.

## Model

| member | source | states |
|---|---|---|
| `Habits.CollectChecked` | app.py:60-67 | the ticked labels in declaration order, one per ticked box, a label listed iff its box is ticked, none twice |
| `Habits.CheckedMembership` | app.py:63-67 | with distinct labels, a label is collected exactly when its box is ticked |
| `Habits.CheckedInOrder` | app.py:63-67 | the collected labels keep the declaration order strictly, so none repeats |
| `Habits.CheckedCount` | app.py:63-67 | one collected label per ticked box, at most the number of boxes |
| `Habits.CompletionRate` | app.py:87 | the rate is `20 * k` for `k` ticked habits and never exceeds 100 |
| `Habits.UnlockNeedsThreeHabits` | app.py:87 | the rate reaches 60 exactly when three or more habits are ticked |
| `History.BuildSample` | app.py:16-23 | the seeding loop yields exactly the records `SeedRecords` describes |
| `History.SeedRecordsShape` | app.py:17-23 | six records dated six days ago to yesterday, strictly ascending, rates in 20..100, moods in 3..9 |
| `App.Session.constructor` | app.py:27-28 | a new session has no history and an empty tarot slot |
| `App.Session.InitState` | app.py:14-24 | the history is seeded only when absent, and left as it is otherwise |
| `App.Session.ChartData` | app.py:94-99 | the chart rows are the history followed by one row for today; the history is not changed |
| `App.Session.RunGate` | app.py:189-214 | the slot becomes `GateStep` of the old slot; a rerun happens exactly when a button acted |
| `App.RunScript` | app.py:14-232 | one run: history seeded once, chart = history + today, gate applied, report only when asked and not rerun, using the slot after the gate |
| `App.LockedRunReportsNoCard` | app.py:212-231 | with fewer than three habits the slot is empty and a report asked in that run says no card was drawn |
| `TarotGate.GateStep` | app.py:189-214 | below 60 the slot is cleared; a card appears only by a draw on an open gate with an empty slot; a full slot is emptied only by locking or reset; with no press an open gate keeps the slot |
| `TarotGate.Reruns` | app.py:192-210 | a rerun needs an open gate and a pressed button |
| `TarotGate.RerunIffChanged` | app.py:189-214 | a rerun happens iff the open gate's button changed the slot |
| `TarotGate.GateSettles` | app.py:189-214 | re-running the gate without a press changes nothing more |
| `TarotGate.RelockDiscardsCard` | app.py:212-214 | after the gate locks, reopening it finds an empty slot |
| `Gateways.GetWeather` | app.py:107-116 | an empty key gives no reading and sends no request; otherwise the reply is passed through |
| `Gateways.BreedOf` | app.py:123 | a breed exists iff the URL has a `/`; it contains neither `/` nor `-` |
| `Gateways.BreedOfPath` | app.py:123 | for `prefix/piece/file` the breed is `title(piece with spaces for hyphens)` |
| `Gateways.BreedOfTwoWords` | app.py:123 | for `prefix/word1-word2/file` with lower-case words the breed is both words capitalized and separated by a space (`hound-afghan` gives "Hound Afghan") |
| `Gateways.GetDogImage` | app.py:118-126 | a partner exists iff the reply came and has a breed piece; it carries the URL and its breed |
| `Gateways.GetTarotCard` | app.py:128-134 | a draw always yields a card: the reply, or "The Fool" fallback on failure |
| `Strings.Split` | app.py:123 | `str.split` on one character always yields at least one piece |
| `Strings.SplitPieces` | app.py:123 | there is exactly one piece iff the separator does not occur, and no piece contains the separator |
| `Strings.JoinSplit` | app.py:123 | joining the pieces with the separator gives back the input |
| `Strings.SplitAround` | app.py:123 | splitting `a + sep + b` gives the pieces of `a` followed by the pieces of `b` |
| `Strings.LastTwoPieces` | app.py:123 | the last two pieces of `prefix/seg/last` are `seg` and `last` |
| `Strings.ReplaceChar` | app.py:123 | same length; every hyphen becomes a space and every other character is kept |
| `Strings.ReplaceCharAppend` | app.py:123 | replacing in a concatenation replaces in each part |
| `Strings.ReplaceCharAbsent` | app.py:123 | a string without the replaced character is unchanged |
| `Strings.TitleSpec` | app.py:123 | `str.title` upper-cases a letter that starts a run of letters, lower-cases the others, keeps non-letters |
| `Strings.TitleIdempotent` | app.py:123 | title-casing twice equals title-casing once |
| `Strings.TitleFromWords` | app.py:123 | words separated by a non-letter are title-cased independently, the second starting afresh |
| `Strings.TitleWord` | app.py:123 | a word of lower-case letters is title-cased to the word with its first letter upper-cased |
| `Strings.IntToStringInjective` | app.py:153-154 | distinct rates and moods are written as distinct texts |
| `Strings.JoinContains` | app.py:153 | every joined habit occurs in the joined text |
| `Report.HabitField` | app.py:153 | no habits gives the "없음" marker; otherwise the field starts with the first habit |
| `Report.HabitFieldListsAll` | app.py:153 | every habit occurs in the habit field |
| `Report.HabitFieldMarksNone` | app.py:153 | for the check-in habits, the field is "없음" iff no box is ticked |
| `Report.WeatherField` | app.py:149 | no reading gives "알 수 없음"; a reading gives its description |
| `Report.TarotLine` | app.py:145-147 | the line is "타로 카드를 뽑지 않았습니다." iff no card was drawn |
| `Report.TarotLineShowsCard` | app.py:147 | a drawn card's name and upright meaning both occur in the line |
| `Report.PromptCarriesFields` | app.py:151-156 | the habit field, rate, mood, weather field and tarot line all occur in the prompt |
| `Report.PromptEmbedsData` | app.py:145-169 | the prompt names every habit, the weather description and the card, or the explicit marker for each missing one |
| `Report.PromptIgnoresDog` | app.py:136-169 | the prompt does not depend on the dog argument |
| `Report.SystemPrompt` | app.py:139-143 | a known style gets its own instruction, any other key the default "당신은 AI 점술가입니다." |
| `Report.PersonasDistinct` | app.py:139-143 | the table's keys are exactly the three selectable styles, with three distinct instructions, none the default |
| `Report.GenerateFortuneReport` | app.py:136-181 | one request with the persona instruction and the prompt; the report is the reply, or the non-empty cracked-orb text on failure |
| `Report.FailedReportQuotesError` | app.py:180-181 | the failure report contains the error message |

## Left out

- Rendering (page config, columns, metrics, spinners, images, the bar chart, the expander, the sidebar inputs) and the checkbox column layout (`i % 2`); only the values they display are modelled.
- The HTTP requests, URL construction and JSON decoding of the three fetch helpers: each takes the decoded reply as a parameter, with `None` for an exception, a timeout, a non-200 status or a missing JSON field.
- The OpenAI client: the chat reply is a parameter (the answer text, or the exception message); a reply whose content is `None` is not modelled.
- `random.randint` and `datetime.now()`: the draws and today's date are parameters; dates are day numbers, `strftime("%Y-%m-%d")` formatting is not modelled, and both clock reads of one run are taken to give the same day.
- The widget keys, the city list and the slider's 1..10 range: they only constrain inputs the model takes as given.
- `Habits.CompletionRate`: the float expression `int(len / 5 * 100)` is modelled as integer arithmetic, which gives the same value for the at most five habits that exist.
- `Strings.Title`: only ASCII letters count as cased; other characters are treated as non-letters (right for Hangul, not for accented Latin letters).
- `Report.WeatherField`: only "no reading gives the marker" is stated as an implication; a service description equal to "알 수 없음" would look the same in the prompt.
- `App.Session`: an absent `tarot_result` key and a `None` value are one state, since the script sets the missing key to `None` before anything reads it.
