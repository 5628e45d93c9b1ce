# Flag trivia quiz: a Dafny model

This project models the logic of a small React trivia app about the countries
of the world. The app fetches a list of countries from a public REST service
and offers three modes:

- **Learn**: a searchable grid of countries with a detail modal.
- **Study**: a flag carousel that wraps around at both ends.
- **Quiz**: fifty generated questions in ten levels of five. Each question asks
  for a capital, a currency or a country name. An answer advances
  automatically after a delay, and a level-up screen appears between levels.

Modules:

- `Wrappers`: `Option`, the model's `null`/`undefined` and "threw".
- `Arith`: facts about `/` and `%`. `Wrap(i, n)` is cyclic indexing by
  repeated subtraction, and `WrapIsMod` shows it equals `i % n`. The model
  indexes the pool with `Wrap` so the large proofs stay linear.
- `Seqs`: `Filter` (JavaScript's `Array.filter`), `NoDuplicates` and `Shuffle`.
  `Shuffle(s, picks)` stands for `sort(() => Math.random() - 0.5)`: the picks
  choose which remaining element comes next. `ShuffleIsAnyPermutation` shows
  every order is produced by some picks, so a property proved for all picks
  holds for whatever order the sort produces.
- `Countries`: the country record, reduced to `name.common`, `capital` and
  `currencies`. Both `capital` and `currencies` are optional, because the code
  tells an absent field from an empty one.
- `CountryApi`: the essential-data filter applied to the fetched list.
- `Study`: the carousel arithmetic and a `StudyMode` class for its two state cells.
- `Learn`: the search filter and a `LearnMode` class for the modal.
- `QuizGeneration`: `generateQuiz`. The random choices arrive as parameters: the
  pool order, and per question a `Draw` holding the category, the candidate
  order and the option order. The `for` loop is the method `SelectFromPool`,
  the `forEach` is the method `QuestionsFor`, and both are proved against the
  function `GeneratedQuestions`.
- `QuizFlow`: the quiz's state machine. `Session` gathers the component's state
  cells and each handler is a step function on it. `Offered` says which events
  the rendered screen, or a pending timer, can produce, and `Inv` holds in
  every state reachable through offered events. The class `QuizMode` runs the
  handlers on mutable fields, and each method is proved equal to its step
  function.

How the code's edge cases are modelled:

- Generation throws `TypeError` when the country list is empty, since
  `pool[i % 0]` is `undefined`. It also throws when a currency question falls
  on a country without `currencies`, since `Object.values(undefined)` fails.
  Either way `GeneratedQuestions` is `None` and the component's state is left
  unchanged.
- The essential-data filter only tests that `currencies` is present, so a
  record with an empty currency object is kept
  (`CountryApi.EmptyCurrenciesKept`).
- When a country's `capital` list is empty, its distractor value is
  `undefined`. So is the value of an empty currency object. Both are
  `Label.Undefined`.
- The auto-advance callback runs the `nextQuestion` of the render that armed
  it, so it plays sounds according to the `soundEnabled` value when the answer
  was given. The model keeps that value in the pending timer (see
  `QuizFlow.MutingAfterAnswerStillPlaysLevelUp`).

## Model

| member | source | states |
|---|---|---|
| Seqs.ShuffleIsAnyPermutation | components/QuizMode.tsx:34 | every reordering of the countries is the shuffled pool for some random draws |
| Seqs.FilterCount | services/api.ts:10 | `filter` keeps every copy of an element that passes and no copy of one that fails |
| CountryApi.FetchCountries | services/api.ts:4-15 | a failed response gives `[]`; otherwise every kept record has a non-empty capital list and a `currencies` field, the result keeps input order, and each complete record is kept as many times as it occurs while every other record is dropped |
| CountryApi.EmptyCurrenciesKept | services/api.ts:10 | a record whose `currencies` object is present but empty passes, because the filter only tests truthiness |
| Study.Next | components/StudyMode.tsx:16-18 | the next index stays in range, moves up by one, and wraps from the last index to 0 |
| Study.Prev | components/StudyMode.tsx:20-22 | the previous index stays in range, moves down by one, and wraps from 0 to the last index |
| Study.PrevUndoesNext | components/StudyMode.tsx:16-22 | previous after next returns to the same index |
| Study.NextUndoesPrev | components/StudyMode.tsx:16-22 | next after previous returns to the same index |
| Study.FullCycle | components/StudyMode.tsx:16-18 | pressing next as many times as there are countries returns to the start |
| Study.Navigate | components/StudyMode.tsx:11-22 | any sequence of next and previous presses keeps the index inside the list |
| Study.StudyMode.constructor | components/StudyMode.tsx:11-12 | the carousel starts at index 0 with the overlay closed |
| Study.StudyMode.Counter | components/StudyMode.tsx:38 | the "n of N" counter is between 1 and N |
| Study.StudyMode.HandleNext | components/StudyMode.tsx:16-18 | the index becomes `Next` of the old index and the overlay is unaffected |
| Study.StudyMode.HandlePrev | components/StudyMode.tsx:20-22 | the index becomes `Prev` of the old index and the overlay is unaffected |
| Study.StudyMode.OpenFullScreen | components/StudyMode.tsx:46 | opening the overlay (the flag here, the maximise button at line 75) sets it, keeps the index and keeps the carousel valid |
| Study.StudyMode.CloseFullScreen | components/StudyMode.tsx:106 | the close button clears the overlay, keeps the index and keeps the carousel valid |
| Learn.FilteredCountries | components/LearnMode.tsx:17-22 | a country is listed exactly when its lower-cased name, or lower-cased first capital, contains the lower-cased term, as many times as it occurs in the input, and the list keeps input order |
| Learn.EmptyTermShowsAll | components/LearnMode.tsx:17-22 | an empty search term lists every country |
| Learn.CaseOfTermIrrelevant | components/LearnMode.tsx:19-20 | two terms that lower-case alike give the same list |
| Learn.SearchIsCaseInsensitive | components/LearnMode.tsx:19-20 | typing the term in upper or lower case gives the same list |
| Learn.NoCapitalMatchesByName | components/LearnMode.tsx:20 | a country with no first capital matches only by its name |
| Learn.NarrowerTermNarrowsList | components/LearnMode.tsx:18-20 | if term `t` contains term `s`, the list for `t` is a subsequence of the list for `s` |
| Learn.LearnMode.constructor | components/LearnMode.tsx:12-15 | empty search, no selection, no fact, not loading |
| Learn.LearnMode.SetSearchTerm | components/LearnMode.tsx:47 | the search box sets the term, and the grid then shows the countries filtered by it |
| Learn.LearnMode.HandleCountryClick | components/LearnMode.tsx:24-27 | a click selects the country, clears the fact and sets loading, and the search is unchanged |
| Learn.LearnMode.ReceiveFact | components/LearnMode.tsx:28-30 | the awaited fact is stored, loading ends, and the selection is unchanged |
| Learn.LearnMode.CloseDetails | components/LearnMode.tsx:87 | the backdrop (and the close button at line 90) clears only the selection |
| QuizGeneration.CorrectAnswer | components/QuizMode.tsx:46-66 | the correct answer is the first capital, or the first currency's name, when that value is present and non-empty, and 'N/A' otherwise; for a name question it is the common name; a missing `currencies` field throws |
| QuizGeneration.Candidates | components/QuizMode.tsx:49-50 | the candidates are exactly the other countries (by common name) that have the field the question asks for, each as many times as it occurs in the list, in list order |
| QuizGeneration.AnswerMatchesDistractorValue | components/QuizMode.tsx:47-70 | the correct answer about a country equals the value other questions read from it as a distractor, except that an empty or missing capital or currency name becomes 'N/A' |
| QuizGeneration.Chosen | components/QuizMode.tsx:49-53 | exactly `min(3, candidates)` candidates are kept, drawn without replacement: the kept ones form a sub-multiset of the candidates |
| QuizGeneration.Distractors | components/QuizMode.tsx:49-70 | there are `min(3, candidates)` distractors, the `j`-th being the value read from the `j`-th chosen candidate, so each comes from a different eligible position |
| QuizGeneration.MakeQuestion | components/QuizMode.tsx:40-80 | building question `i` fails exactly for a currency question about a country without `currencies`; otherwise it carries its index, category and country |
| QuizGeneration.QuestionOptions | components/QuizMode.tsx:47-78 | the options are a reordering of the correct answer plus the distractors: the correct answer is offered, there are one to four options, and every other option is a distractor |
| QuizGeneration.GeneratedShape | components/QuizMode.tsx:30-80 | generation fails exactly when the list is empty or a currency question falls on a country without `currencies`; otherwise there are fifty questions and question `i` is built from `pool[i % N]` |
| QuizGeneration.ThrowsAt | components/QuizMode.tsx:40-80 | one question that cannot be built makes the whole generation fail |
| QuizGeneration.BuiltAll | components/QuizMode.tsx:40-80 | when every question is built from `pool[i % N]`, they are exactly the generated questions |
| QuizGeneration.SelectFromPool | components/QuizMode.tsx:36-38 | the `for` loop yields fifty countries, entry `i` being `pool[i % pool.length]` |
| QuizGeneration.QuestionsFor | components/QuizMode.tsx:40-80 | the `forEach` fails when some question cannot be built and otherwise yields exactly the built questions, in order |
| QuizGeneration.BuildQuestions | components/QuizMode.tsx:30-80 | the two loops compute `GeneratedQuestions`, including its failure cases |
| QuizGeneration.GeneratedOffersAnswers | components/QuizMode.tsx:72-78 | every generated question offers its own correct answer |
| QuizGeneration.GeneratedCycle | components/QuizMode.tsx:34-38 | question `i` of a generated quiz is about `pool[i % N]` |
| QuizGeneration.CycleCount | components/QuizMode.tsx:36-38 | with distinct countries, the one at pool position `p` is asked `50 / N` times, plus one if `p < 50 % N` |
| QuizGeneration.CycleSpread | components/QuizMode.tsx:36-38 | with distinct countries, each one is asked between `floor(50 / N)` and `ceil(50 / N)` times |
| QuizGeneration.EvenlySpread | components/QuizMode.tsx:34-38 | in a generated quiz over distinct countries, each country is asked `floor(50 / N)` or `ceil(50 / N)` times |
| QuizGeneration.NoRepeatsFromLargePool | components/QuizMode.tsx:34-38 | with at least fifty distinct countries, no country is asked twice |
| QuizFlow.AnswerIgnoredOnceSelected | components/QuizMode.tsx:125-126 | once an answer is selected, further answers change nothing and play nothing |
| QuizFlow.AnswerScoring | components/QuizMode.tsx:125-144 | correctness is exact equality with the correct answer; a correct answer adds one to both score and streak, a wrong one resets the streak; the answer is recorded and the timer is armed |
| QuizFlow.MutingAfterAnswerStillPlaysLevelUp | components/QuizMode.tsx:142-144 | the auto-advance plays the level-up sound even if sound was switched off after answering |
| QuizFlow.NextOutcomes | components/QuizMode.tsx:99-123 | advancing always clears the timer, then exactly one of three things happens, in this precedence: after the last question the quiz finishes, with the trophy sound when sound is on; at the end of a level the level-up screen shows, with the level-up sound when sound is on; otherwise the index moves to the next question and the selection is cleared; the other screen flag, the selection on the first two paths, and questions, score, level, streak and sound setting are kept |
| QuizFlow.ProceedStartsLevel | components/QuizMode.tsx:146-156 | leaving the level-up screen moves both index and level up by one, to step 1, and clears the selection, keeping questions, score, streak, the finished flag and the sound setting |
| QuizFlow.FreshStart | components/QuizMode.tsx:82-92 | a new quiz starts at index 0, score 0, level 1, step 1, with both screens off, no selection and streak 0 |
| QuizFlow.InvBounds | components/QuizMode.tsx:254 | in every reachable state the index names a question, the level is 1 to 10, the step counter is 1 to 5, and score is at most index + 1 |
| QuizFlow.GeneratedInv | components/QuizMode.tsx:82-92 | a fifty-question quiz started from the first or final screen satisfies the invariant |
| QuizFlow.InvPreserved | components/QuizMode.tsx:99-156 | every offered event keeps the invariant: `level == index / 5 + 1`, the score bound, never both finished and level-up, and the timer pending only on the question screen |
| QuizFlow.RunInv | components/QuizMode.tsx:99-156 | any run of events from a state satisfying the invariant ends in one |
| QuizFlow.ReachableInv | components/QuizMode.tsx:13-156 | every state reachable from the freshly mounted component satisfies the invariant |
| QuizFlow.ScoreStep | components/QuizMode.tsx:129-135 | an event other than a restart adds one to the score exactly for an offered correct answer, and never moves index or level back |
| QuizFlow.ScoreCountsCorrectAnswers | components/QuizMode.tsx:129-139 | until a restart, the score grows by the number of correct answers given, the questions stay the same, and index and level never go back |
| QuizFlow.RunAppend | components/QuizMode.tsx:99-156 | running two event sequences one after the other equals running their concatenation |
| QuizFlow.PerfectGame | components/QuizMode.tsx:99-156 | answering every question of a new quiz correctly ends on the final screen with score 50, level 10 and a streak of 50 |
| QuizFlow.GeneratedQuizCompletable | components/QuizMode.tsx:30-156 | every generated quiz can be finished with a perfect score |
| QuizFlow.QuizMode.constructor | components/QuizMode.tsx:13-19 | no quiz, no selection, streak 0, sound on, no timer |
| QuizFlow.QuizMode.GenerateQuiz | components/QuizMode.tsx:30-93 | it succeeds exactly when `GeneratedQuestions` does and then installs the fresh quiz; on failure nothing changes; it keeps the invariant |
| QuizFlow.QuizMode.HandleAnswer | components/QuizMode.tsx:125-144 | the fields change as `AnswerStep` says and the invariant is kept |
| QuizFlow.QuizMode.NextQuestion | components/QuizMode.tsx:99-123 | the fields change as `NextStep` says, with the sound flag the callback closed over |
| QuizFlow.QuizMode.ClickNext | components/QuizMode.tsx:369-376 | the Next button runs `nextQuestion` with the current sound flag and keeps the invariant |
| QuizFlow.QuizMode.FireTimer | components/QuizMode.tsx:142-144 | the timeout runs `nextQuestion` with the captured sound flag and keeps the invariant |
| QuizFlow.QuizMode.ProceedToNextLevel | components/QuizMode.tsx:146-156 | the fields change as `ProceedStep` says and the invariant is kept |
| QuizFlow.QuizMode.ToggleSound | components/QuizMode.tsx:277 | the speaker button flips the sound flag and keeps the invariant |

## Left out

- All JSX, styling and class-name logic, and the whole of components/Home.tsx (pure rendering).
- App.tsx mode routing and its loading spinner.
- services/sounds.ts (Web Audio synthesis). A sound is only named by the `Sound` the step returns.
- services/gemini.ts (a call to a generative model). `LearnMode.ReceiveFact` takes the fact as a parameter.
- The `fetch` call and JSON decoding in services/api.ts. Their outcome is the `response` parameter.
- Real timers. The 1500 ms `setTimeout` is a pending flag plus the `TimerFires` event, and the unmount cleanup is not modelled.
- React state batching and asynchrony, including the `await` in `handleCountryClick`. The continuation is the separate method `ReceiveFact`.
- The effect that regenerates the quiz when the `countries` prop changes identity. The model's country list is fixed for the component's life.
- QuizGeneration.MakeQuestion: the option order is any permutation of the options. JavaScript's `sort` always puts `undefined` entries last and never hands them to the comparator, so an `undefined` distractor is always the last option on screen. The model also allows orders the browser never produces, so the properties proved for all orders still hold, but the model does not state that the `undefined` option comes last.
- Randomness as a distribution. The comparator sort is modelled only as "some permutation".
- The accuracy percentages, progress-bar widths (floating-point division and `Math.round`), and population formatting.
- QuizGeneration.Question: `id` is kept as the index that the string `q-<index>` carries.
- The country fields the core never reads (flags, region, population, `cca2` and so on).
- Learn.Lower: `toLowerCase` is modelled for ASCII letters only. Other characters are left unchanged.
- Study.StudyMode.constructor: the source never guards an empty list but indexes `countries[currentIndex]` while rendering, so the model requires a non-empty list.
- QuizFlow.Step: it is defined only for offered events, and `Run` ignores an event the state does not offer. Buttons that are hidden or disabled cannot be pressed.
- QuizFlow.QuizMode.GenerateQuiz: when `generateQuiz` throws inside the mount effect, React would unmount the tree. The model only records that no state cell was set.
