/**
 * components/QuizMode.tsx, `generateQuiz`: fifty questions drawn from a
 * shuffled pool of countries, each with a category, a correct answer, up to
 * three distractors from other countries, and the options in shuffled order.
 *
 * Every `sort(() => Math.random() - 0.5)` is `Shuffle` driven by arbitrary
 * picks, and every `Math.random()` category choice is an arbitrary `Category`;
 * both arrive as parameters, so each property below holds for all of them.
 */
module QuizGeneration {
  import opened Wrappers
  import opened Arith
  import opened Seqs
  import opened Countries

  const QUESTIONS_PER_LEVEL: nat := 5
  const MAX_LEVEL: nat := 10
  const TOTAL_QUESTIONS: nat := QUESTIONS_PER_LEVEL * MAX_LEVEL

  datatype Category = Capital | Currency | Flag

  /**
   * An answer option. Options are meant to be strings, but a distractor read
   * from an empty capital list or an empty currency object is JavaScript's
   * `undefined`.
   */
  datatype Label = Text(text: string) | Undefined

  /** The Question record of types.ts; `id` is the index that the id string `q-<index>` carries. */
  datatype Question = Question(
    id: nat,
    kind: Category,
    country: Country,
    options: seq<Label>,
    correctAnswer: string)

  /**
   * The random choices made for one question: its category, the order the
   * distractor candidates are shuffled into, and the order of the options.
   */
  datatype Draw = Draw(kind: Category, distractorPicks: seq<nat>, optionPicks: seq<nat>)

  function Min(a: nat, b: nat): nat {
    if a <= b then a else b
  }

  /** `v || 'N/A'` for a value that is a string or `undefined`. */
  function OrNA(v: Option<string>): string {
    if v.Some? && v.value != "" then v.value else "N/A"
  }

  /**
   * The correct answer for `c` under `kind`, or `None` when computing it
   * throws: `Object.values` of an absent `currencies` field is a TypeError.
   */
  function CorrectAnswer(c: Country, kind: Category): (r: Option<string>)
    ensures kind == Flag ==> r == Some(c.commonName)
    ensures kind == Capital ==>
      r.Some? && (r.value == "N/A" || Some(r.value) == FirstCapital(c))
      && (FirstCapital(c).None? || FirstCapital(c) == Some("") ==> r.value == "N/A")
    ensures kind == Currency ==> (r.Some? <==> c.currencies.Some?)
    ensures kind == Currency && r.Some? ==>
      (r.value == "N/A" || (FirstCurrency(c).Some? && r.value == FirstCurrency(c).value.name))
      && (FirstCurrency(c).None? ==> r.value == "N/A")
    ensures kind == Capital && FirstCapital(c).Some? && FirstCapital(c).value != "" ==> r == FirstCapital(c)
    ensures kind == Currency && c.currencies.Some? && FirstCurrency(c).Some? && FirstCurrency(c).value.name != "" ==>
      r == Some(FirstCurrency(c).value.name)
    ensures kind != Flag && r.Some? ==> r.value != ""
  {
    match kind
    case Capital => Some(OrNA(FirstCapital(c)))
    case Currency =>
      if c.currencies.None? then None
      else Some(OrNA(match FirstCurrency(c) case Some(info) => Some(info.name) case None => None))
    case Flag => Some(c.commonName)
  }

  /** The truthiness test on the field a distractor is read from (`c.capital`, `c.currencies`). */
  predicate HasField(c: Country, kind: Category) {
    match kind
    case Capital => c.capital.Some?
    case Currency => c.currencies.Some?
    case Flag => true
  }

  /** The filter over all countries that yields the distractor candidates for `country`. */
  predicate IsDistractorSource(c: Country, country: Country, kind: Category) {
    c.commonName != country.commonName && HasField(c, kind)
  }

  /** `c.capital[0]`, `Object.values(c.currencies)[0]?.name` or `c.name.common`; no 'N/A' fallback here. */
  function DistractorLabel(c: Country, kind: Category): Label
    requires HasField(c, kind)
  {
    match kind
    case Capital => if |c.capital.value| > 0 then Text(c.capital.value[0]) else Undefined
    case Currency => (match FirstCurrency(c) case Some(info) => Text(info.name) case None => Undefined)
    case Flag => Text(c.commonName)
  }

  /**
   * A country's correct answer is the value the other questions read from it
   * as a distractor, except that the correct answer replaces a missing or
   * empty capital or currency name by 'N/A'.
   */
  lemma AnswerMatchesDistractorValue(c: Country, kind: Category)
    requires HasField(c, kind)
    ensures DistractorLabel(c, kind).Text? && DistractorLabel(c, kind).text != "" ==>
      CorrectAnswer(c, kind) == Some(DistractorLabel(c, kind).text)
    ensures kind != Flag && (DistractorLabel(c, kind).Undefined? || DistractorLabel(c, kind) == Text("")) ==>
      CorrectAnswer(c, kind) == Some("N/A")
  {
  }

  /** The countries a distractor may be read from, in list order. */
  function Candidates(countries: seq<Country>, country: Country, kind: Category): (r: seq<Country>)
    ensures forall j :: 0 <= j < |r| ==> r[j] in countries && IsDistractorSource(r[j], country, kind)
    ensures forall c :: c in countries && IsDistractorSource(c, country, kind) ==> c in r
    ensures IsSubsequence(r, countries)
    ensures forall i :: 0 <= i < |countries| ==>
      multiset(r)[countries[i]] == if IsDistractorSource(countries[i], country, kind) then multiset(countries)[countries[i]] else 0
  {
    var eligible := c => IsDistractorSource(c, country, kind);
    FilterCount(countries, eligible);
    Filter(countries, eligible)
  }

  /**
   * `.sort(() => Math.random() - 0.5).slice(0, 3)` of the candidates: up to
   * three of them, drawn without replacement.
   */
  function Chosen(countries: seq<Country>, country: Country, kind: Category, picks: seq<nat>): (r: seq<Country>)
    ensures |r| == Min(3, |Candidates(countries, country, kind)|)
    ensures multiset(r) <= multiset(Candidates(countries, country, kind))
    ensures forall j :: 0 <= j < |r| ==> r[j] in countries && IsDistractorSource(r[j], country, kind)
  {
    var cands := Candidates(countries, country, kind);
    var others := Shuffle(cands, picks);
    ChosenFromCandidates(cands, others, Min(3, |others|), country, kind);
    others[..Min(3, |others|)]
  }

  lemma ChosenFromCandidates(cands: seq<Country>, others: seq<Country>, n: nat, country: Country, kind: Category)
    requires multiset(others) == multiset(cands) && n <= |others|
    ensures multiset(others[..n]) <= multiset(cands)
    ensures forall j :: 0 <= j < n ==> others[j] in cands
  {
    assert others == others[..n] + others[n..];
    forall j | 0 <= j < n ensures others[j] in cands {
      assert others[j] in multiset(others);
    }
  }

  /** `.map(...)` of the chosen candidates to the value the question asks for. */
  function Distractors(countries: seq<Country>, country: Country, kind: Category, picks: seq<nat>): (ds: seq<Label>)
    ensures |ds| == Min(3, |Candidates(countries, country, kind)|)
    ensures var chosen := Chosen(countries, country, kind, picks);
      |ds| == |chosen| && forall j :: 0 <= j < |ds| ==> ds[j] == DistractorLabel(chosen[j], kind)
    ensures forall j :: 0 <= j < |ds| ==>
      exists c :: c in countries && IsDistractorSource(c, country, kind) && ds[j] == DistractorLabel(c, kind)
  {
    var chosen := Chosen(countries, country, kind, picks);
    var ds := seq(|chosen|, j requires 0 <= j < |chosen| => DistractorLabel(chosen[j], kind));
    assert forall j :: 0 <= j < |ds| ==> ds[j] == DistractorLabel(chosen[j], kind);
    ds
  }

  /**
   * One iteration of the `forEach`: the question for `country` at position
   * `index`, or `None` when building it throws.
   */
  function MakeQuestion(countries: seq<Country>, index: nat, country: Country, draw: Draw): (r: Option<Question>)
    ensures r.None? <==> draw.kind == Currency && country.currencies.None?
    ensures r.Some? ==> r.value.id == index && r.value.kind == draw.kind && r.value.country == country
  {
    match CorrectAnswer(country, draw.kind)
    case None => None
    case Some(answer) =>
      var ds := Distractors(countries, country, draw.kind, draw.distractorPicks);
      Some(Question(index, draw.kind, country, Shuffle([Text(answer)] + ds, draw.optionPicks), answer))
  }

  /**
   * The options of a question are a shuffle of the correct answer followed by
   * the distractors: the correct answer is always offered, there are at most
   * four options (exactly four when three candidates exist), and every other
   * option is one of the distractors. A distractor may coincide with
   * the correct answer, so the correct answer is not promised to appear once.
   */
  lemma QuestionOptions(countries: seq<Country>, index: nat, country: Country, draw: Draw)
    requires MakeQuestion(countries, index, country, draw).Some?
    ensures var q := MakeQuestion(countries, index, country, draw).value;
      && Some(q.correctAnswer) == CorrectAnswer(country, draw.kind)
      && multiset(q.options)
         == multiset([Text(q.correctAnswer)] + Distractors(countries, country, draw.kind, draw.distractorPicks))
      && Text(q.correctAnswer) in q.options
      && |q.options| == 1 + Min(3, |Candidates(countries, country, draw.kind)|)
      && 1 <= |q.options| <= 4
      && forall j :: 0 <= j < |q.options| && q.options[j] != Text(q.correctAnswer) ==>
           q.options[j] in Distractors(countries, country, draw.kind, draw.distractorPicks)
  {
    var q := MakeQuestion(countries, index, country, draw).value;
    var ds := Distractors(countries, country, draw.kind, draw.distractorPicks);
    assert q.options == Shuffle([Text(q.correctAnswer)] + ds, draw.optionPicks);
    OfferedAmong(Text(q.correctAnswer), ds, q.options);
  }

  /** A reordering of `[answer] + ds` holds `answer`, and everything else in it comes from `ds`. */
  lemma OfferedAmong(answer: Label, ds: seq<Label>, options: seq<Label>)
    requires multiset(options) == multiset([answer] + ds)
    ensures answer in options
    ensures forall j :: 0 <= j < |options| && options[j] != answer ==> options[j] in ds
  {
    assert ([answer] + ds)[0] == answer;
    assert answer in multiset(options);
    forall j | 0 <= j < |options| && options[j] != answer ensures options[j] in ds {
      assert options[j] in multiset([answer] + ds);
    }
  }

  /** Generation throws: some question cannot be built, or the pool is empty. */
  predicate Throws(countries: seq<Country>, poolPicks: seq<nat>, draws: seq<Draw>)
    requires |draws| == TOTAL_QUESTIONS
  {
    var pool := Shuffle(countries, poolPicks);
    |pool| == 0
    || exists i | 0 <= i < TOTAL_QUESTIONS :: MakeQuestion(countries, i, pool[Wrap(i, |pool|)], draws[i]).None?
  }

  /**
   * The questions `generateQuiz` stores: question `i` is about
   * `pool[i % pool.length]`, where the pool is a shuffle of the countries.
   */
  function GeneratedQuestions(countries: seq<Country>, poolPicks: seq<nat>, draws: seq<Draw>): Option<seq<Question>>
    requires |draws| == TOTAL_QUESTIONS
  {
    if Throws(countries, poolPicks, draws) then None
    else
      var pool := Shuffle(countries, poolPicks);
      Some(seq(TOTAL_QUESTIONS, i requires 0 <= i < TOTAL_QUESTIONS =>
        MakeQuestion(countries, i, pool[Wrap(i, |pool|)], draws[i]).value))
  }

  /**
   * Generation fails exactly when the list is empty or a currency question
   * falls on a country without `currencies`; otherwise there are
   * `TOTAL_QUESTIONS` questions and question `i` is about `pool[i % N]`.
   */
  lemma GeneratedShape(countries: seq<Country>, poolPicks: seq<nat>, draws: seq<Draw>)
    requires |draws| == TOTAL_QUESTIONS
    ensures var r := GeneratedQuestions(countries, poolPicks, draws);
      && (r.None? <==>
           (|countries| == 0
            || exists i | 0 <= i < TOTAL_QUESTIONS ::
                 draws[i].kind == Currency && Shuffle(countries, poolPicks)[Wrap(i, |countries|)].currencies.None?))
      && (r.Some? ==>
           |r.value| == TOTAL_QUESTIONS
           && forall i :: 0 <= i < TOTAL_QUESTIONS ==>
                MakeQuestion(countries, i, Shuffle(countries, poolPicks)[Wrap(i, |countries|)], draws[i]) == Some(r.value[i]))
  {
  }

  /** Question `i` cannot be built, so generation throws. */
  lemma ThrowsAt(countries: seq<Country>, poolPicks: seq<nat>, draws: seq<Draw>, i: nat)
    requires |draws| == TOTAL_QUESTIONS && |countries| > 0 && i < TOTAL_QUESTIONS
    requires MakeQuestion(countries, i, Shuffle(countries, poolPicks)[Wrap(i, |countries|)], draws[i]).None?
    ensures GeneratedQuestions(countries, poolPicks, draws).None?
  {
  }

  /** Every question `i` is built from `pool[i % N]`, so they are the generated ones. */
  lemma BuiltAll(countries: seq<Country>, poolPicks: seq<nat>, draws: seq<Draw>, questions: seq<Question>)
    requires |draws| == TOTAL_QUESTIONS && |countries| > 0 && |questions| == TOTAL_QUESTIONS
    requires forall j :: 0 <= j < TOTAL_QUESTIONS ==>
      MakeQuestion(countries, j, Shuffle(countries, poolPicks)[Wrap(j, |countries|)], draws[j]) == Some(questions[j])
    ensures GeneratedQuestions(countries, poolPicks, draws) == Some(questions)
  {
    var pool := Shuffle(countries, poolPicks);
    assert !Throws(countries, poolPicks, draws) by {
      forall j | 0 <= j < TOTAL_QUESTIONS ensures MakeQuestion(countries, j, pool[Wrap(j, |pool|)], draws[j]).Some? {
      }
    }
    var expected := GeneratedQuestions(countries, poolPicks, draws).value;
    assert |expected| == TOTAL_QUESTIONS;
    forall j | 0 <= j < TOTAL_QUESTIONS ensures expected[j] == questions[j] {
    }
    assert expected == questions;
  }

  /** The `for` loop of `generateQuiz`: `selection[i]` is `pool[i % pool.length]`. */
  method SelectFromPool(pool: seq<Country>) returns (selection: seq<Country>)
    requires |pool| > 0
    ensures |selection| == TOTAL_QUESTIONS
    ensures forall j :: 0 <= j < TOTAL_QUESTIONS ==> selection[j] == pool[Wrap(j, |pool|)]
  {
    selection := [];
    var i := 0;
    while i < TOTAL_QUESTIONS
      invariant 0 <= i <= TOTAL_QUESTIONS
      invariant |selection| == i
      invariant forall j :: 0 <= j < i ==> selection[j] == pool[Wrap(j, |pool|)]
    {
      WrapIsMod(i, |pool|);
      selection := selection + [pool[i % |pool|]];
      i := i + 1;
    }
  }

  /**
   * The `forEach` of `generateQuiz`: one question per selected country, or
   * `None` at the first one whose construction throws.
   */
  method QuestionsFor(countries: seq<Country>, selection: seq<Country>, draws: seq<Draw>)
    returns (r: Option<seq<Question>>)
    requires |selection| == |draws|
    ensures r.None? ==> exists i | 0 <= i < |selection| :: MakeQuestion(countries, i, selection[i], draws[i]).None?
    ensures r.Some? ==>
      |r.value| == |selection|
      && forall j :: 0 <= j < |selection| ==> MakeQuestion(countries, j, selection[j], draws[j]) == Some(r.value[j])
  {
    var questions: seq<Question> := [];
    var i := 0;
    while i < |selection|
      invariant 0 <= i <= |selection|
      invariant |questions| == i
      invariant forall j :: 0 <= j < i ==> MakeQuestion(countries, j, selection[j], draws[j]) == Some(questions[j])
    {
      var q := MakeQuestion(countries, i, selection[i], draws[i]);
      if q.None? {
        return None;
      }
      BuiltSnoc(countries, selection, draws, questions, q.value);
      questions := questions + [q.value];
      i := i + 1;
    }
    return Some(questions);
  }

  lemma BuiltSnoc(countries: seq<Country>, selection: seq<Country>, draws: seq<Draw>, qs: seq<Question>, q: Question)
    requires |qs| < |selection| == |draws|
    requires forall j :: 0 <= j < |qs| ==> MakeQuestion(countries, j, selection[j], draws[j]) == Some(qs[j])
    requires MakeQuestion(countries, |qs|, selection[|qs|], draws[|qs|]) == Some(q)
    ensures forall j :: 0 <= j < |qs| + 1 ==> MakeQuestion(countries, j, selection[j], draws[j]) == Some((qs + [q])[j])
  {
    forall j | 0 <= j < |qs| + 1
      ensures MakeQuestion(countries, j, selection[j], draws[j]) == Some((qs + [q])[j])
    {
      if j < |qs| {
        assert (qs + [q])[j] == qs[j];
      } else {
        assert (qs + [q])[j] == q;
      }
    }
  }

  /** `generateQuiz` up to `setQuiz`: the generated questions, or `None` when it throws. */
  method BuildQuestions(countries: seq<Country>, poolPicks: seq<nat>, draws: seq<Draw>)
    returns (r: Option<seq<Question>>)
    requires |draws| == TOTAL_QUESTIONS
    ensures r == GeneratedQuestions(countries, poolPicks, draws)
  {
    var pool := Shuffle(countries, poolPicks);
    if |pool| == 0 {
      return None;
    }
    var selection := SelectFromPool(pool);
    r := QuestionsFor(countries, selection, draws);
    if r.None? {
      var i :| 0 <= i < |selection| && MakeQuestion(countries, i, selection[i], draws[i]).None?;
      ThrowsAt(countries, poolPicks, draws, i);
    } else {
      BuiltAll(countries, poolPicks, draws, r.value);
    }
  }

  /** Every generated question offers its own correct answer among its options. */
  lemma GeneratedOffersAnswers(countries: seq<Country>, poolPicks: seq<nat>, draws: seq<Draw>, qs: seq<Question>)
    requires |draws| == TOTAL_QUESTIONS
    requires GeneratedQuestions(countries, poolPicks, draws) == Some(qs)
    ensures |qs| == TOTAL_QUESTIONS
    ensures forall i :: 0 <= i < |qs| ==> Text(qs[i].correctAnswer) in qs[i].options
  {
    GeneratedShape(countries, poolPicks, draws);
    var pool := Shuffle(countries, poolPicks);
    forall i | 0 <= i < |qs| ensures Text(qs[i].correctAnswer) in qs[i].options {
      QuestionOptions(countries, i, pool[Wrap(i, |pool|)], draws[i]);
    }
  }

  /** How many of the questions are about `c`. */
  function Appearances(qs: seq<Question>, c: Country): nat {
    if qs == [] then 0
    else Appearances(qs[..|qs| - 1], c) + (if qs[|qs| - 1].country == c then 1 else 0)
  }

  /** How many `i < n` have `Wrap(i, size) == p`. */
  function Hits(n: nat, size: nat, p: nat): nat
    requires size > 0
  {
    if n == 0 then 0 else Hits(n - 1, size, p) + (if Wrap(n - 1, size) == p then 1 else 0)
  }

  lemma {:induction false} HitsCount(n: nat, size: nat, p: nat)
    requires p < size
    ensures Hits(n, size, p) == n / size + (if p < n % size then 1 else 0)
  {
    if n > 0 {
      HitsCount(n - 1, size, p);
      DivModSucc(n - 1, size);
      WrapIsMod(n - 1, size);
    }
  }

  lemma {:induction false} AppearancesArePoolHits(qs: seq<Question>, pool: seq<Country>, p: nat, n: nat)
    requires NoDuplicates(pool) && p < |pool|
    requires n <= |qs| && forall i :: 0 <= i < |qs| ==> qs[i].country == pool[Wrap(i, |pool|)]
    ensures Appearances(qs[..n], pool[p]) == Hits(n, |pool|, p)
  {
    if n > 0 {
      AppearancesArePoolHits(qs, pool, p, n - 1);
      assert qs[..n][..n - 1] == qs[..n - 1];
      assert qs[..n][n - 1].country == pool[Wrap(n - 1, |pool|)];
    }
  }

  /** Question `i` of a generated quiz is about `pool[i % N]`. */
  lemma GeneratedCycle(countries: seq<Country>, poolPicks: seq<nat>, draws: seq<Draw>, qs: seq<Question>)
    requires |draws| == TOTAL_QUESTIONS
    requires GeneratedQuestions(countries, poolPicks, draws) == Some(qs)
    ensures |countries| > 0 && |qs| == TOTAL_QUESTIONS
    ensures forall i :: 0 <= i < |qs| ==> qs[i].country == Shuffle(countries, poolPicks)[Wrap(i, |countries|)]
  {
    var pool := Shuffle(countries, poolPicks);
    forall i | 0 <= i < |qs| ensures qs[i].country == pool[Wrap(i, |pool|)] {
      assert MakeQuestion(countries, i, pool[Wrap(i, |pool|)], draws[i]) == Some(qs[i]);
    }
  }

  /** Cycling through distinct countries, the one at position `p` comes up once per lap, plus once in a partial lap. */
  lemma CycleCount(qs: seq<Question>, pool: seq<Country>, p: nat)
    requires NoDuplicates(pool) && p < |pool| && |qs| == TOTAL_QUESTIONS
    requires forall i :: 0 <= i < |qs| ==> qs[i].country == pool[Wrap(i, |pool|)]
    ensures Appearances(qs, pool[p]) == TOTAL_QUESTIONS / |pool| + (if p < TOTAL_QUESTIONS % |pool| then 1 else 0)
  {
    AppearancesArePoolHits(qs, pool, p, |qs|);
    assert qs[..|qs|] == qs;
    HitsCount(TOTAL_QUESTIONS, |pool|, p);
  }

  /** Cycling through distinct countries, each comes up the quotient of laps, rounded down or up. */
  lemma CycleSpread(qs: seq<Question>, pool: seq<Country>, c: Country)
    requires NoDuplicates(pool) && c in pool && |qs| == TOTAL_QUESTIONS
    requires forall i :: 0 <= i < |qs| ==> qs[i].country == pool[Wrap(i, |pool|)]
    ensures TOTAL_QUESTIONS / |pool| <= Appearances(qs, c) <= (TOTAL_QUESTIONS + |pool| - 1) / |pool|
  {
    var p := IndexOf(pool, c);
    CycleCount(qs, pool, p);
    FloorCeilBounds(Appearances(qs, c), |pool|, p);
  }

  /**
   * The pool is cycled through in order, so with distinct countries every
   * country is asked about either `TOTAL_QUESTIONS / N` times or that number
   * rounded up.
   */
  lemma EvenlySpread(countries: seq<Country>, poolPicks: seq<nat>, draws: seq<Draw>, qs: seq<Question>, c: Country)
    requires |draws| == TOTAL_QUESTIONS
    requires NoDuplicates(countries) && c in countries
    requires GeneratedQuestions(countries, poolPicks, draws) == Some(qs)
    ensures TOTAL_QUESTIONS / |countries| <= Appearances(qs, c) <= (TOTAL_QUESTIONS + |countries| - 1) / |countries|
  {
    var pool := Shuffle(countries, poolPicks);
    GeneratedCycle(countries, poolPicks, draws, qs);
    PermutationNoDuplicates(countries, pool);
    assert c in multiset(pool);
    CycleSpread(qs, pool, c);
  }

  lemma FloorCeilBounds(count: nat, n: nat, p: nat)
    requires p < n && count == TOTAL_QUESTIONS / n + (if p < TOTAL_QUESTIONS % n then 1 else 0)
    ensures TOTAL_QUESTIONS / n <= count <= (TOTAL_QUESTIONS + n - 1) / n
  {
    CeilDiv(TOTAL_QUESTIONS, n);
  }

  /** With at least fifty distinct countries no country is asked about twice. */
  lemma NoRepeatsFromLargePool(countries: seq<Country>, poolPicks: seq<nat>, draws: seq<Draw>, qs: seq<Question>)
    requires |draws| == TOTAL_QUESTIONS
    requires NoDuplicates(countries) && |countries| >= TOTAL_QUESTIONS
    requires GeneratedQuestions(countries, poolPicks, draws) == Some(qs)
    ensures forall i, j :: 0 <= i < j < |qs| ==> qs[i].country != qs[j].country
  {
    var pool := Shuffle(countries, poolPicks);
    PermutationNoDuplicates(countries, pool);
    forall i | 0 <= i < |qs| ensures qs[i].country == pool[i] {
      assert MakeQuestion(countries, i, pool[Wrap(i, |pool|)], draws[i]) == Some(qs[i]);
    }
  }
}
