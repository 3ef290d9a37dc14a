/** The band estimator of the tracker: the fixed weight table, the per-skill weighted
    estimate quantised to quarter bands, the overall band, and the per-criterion
    rating update of the self-assessment store.

    Units. A rating or a skill band is an integer number of QUARTER bands (6.25 is 25),
    which is exact because the rating sliders move in steps of 0.25. A weight is an
    integer number of HUNDREDTHS (0.3 is 30). The overall band, the mean of four quarter
    bands, is an integer number of SIXTEENTHS (6.125 is 98). */
module Bands {

  datatype Skill = Speaking | Listening | Reading | Writing

  /** One skill's ratings: criterion name to rating in quarter bands. */
  type Entry = map<string, int>

  /** The self-assessment: a skill without an entry has no data. */
  type Assessment = map<Skill, Entry>

  /** The highest rating and band, 9, in quarters. */
  const MaxQuarters := 36

  /** The cap of the overall band, 9, in sixteenths. */
  const MaxSixteenths := 144

  /** The weight table, in hundredths. */
  function Weights(s: Skill): map<string, nat>
  {
    match s
    case Speaking => map["fluency" := 30, "lexical" := 25, "grammar" := 25, "pronunciation" := 20]
    case Listening => map["detail" := 25, "mainIdeas" := 30, "inference" := 25, "vocabulary" := 20]
    case Reading => map["skimming" := 30, "scanning" := 30, "detail" := 20, "inference" := 20]
    case Writing => map["task1" := 30, "task2" := 40, "coherence" := 20, "vocabulary" := 10]
  }

  /** The four criteria of a skill as an explicit ordered list: exactly the keys of its
      weight table, each once. */
  function Criteria(s: Skill): (cs: seq<string>)
    ensures |cs| == 4 && Distinct(cs)
    ensures forall c :: c in cs <==> c in Weights(s)
  {
    match s
    case Speaking => ["fluency", "lexical", "grammar", "pronunciation"]
    case Listening => ["detail", "mainIdeas", "inference", "vocabulary"]
    case Reading => ["skimming", "scanning", "detail", "inference"]
    case Writing => ["task1", "task2", "coherence", "vocabulary"]
  }

  predicate Distinct<T(==)>(s: seq<T>)
  {
    forall i, j :: 0 <= i < j < |s| ==> s[i] != s[j]
  }

  /** The weight of a criterion, 0 for a name that is not one of the skill's criteria. */
  function Weight(s: Skill, c: string): nat
  {
    if c in Weights(s) then Weights(s)[c] else 0
  }

  /** Sum of the weights of the listed criteria. */
  function WeightSum(s: Skill, cs: seq<string>): int
  {
    if cs == [] then 0
    else Weight(s, cs[0]) + WeightSum(s, cs[1..])
  }

  /** No criterion is weightless: every weight in the table is positive. */
  lemma WeightsPositive(s: Skill)
    ensures forall c :: c in Weights(s) ==> Weights(s)[c] > 0
  {
    match s
    case Speaking =>
    case Listening =>
    case Reading =>
    case Writing =>
  }

  lemma WeightsSumToOne(s: Skill)
    ensures WeightSum(s, Criteria(s)) == 100
  {
    var cs := Criteria(s);
    var w := Weights(s);
    assert cs[1..][1..][1..][1..] == [];
    assert WeightSum(s, cs[1..][1..][1..]) == w[cs[3]];
    assert WeightSum(s, cs[1..][1..]) == w[cs[2]] + w[cs[3]];
    assert WeightSum(s, cs[1..]) == w[cs[1]] + w[cs[2]] + w[cs[3]];
    assert WeightSum(s, cs) == w[cs[0]] + w[cs[1]] + w[cs[2]] + w[cs[3]];
    match s
    case Speaking =>
    case Listening =>
    case Reading =>
    case Writing =>
  }

  /** Every key of the entry is a criterion of the skill. The estimator multiplies each
      rating by its criterion's weight, so a key outside the weight table has no weight. */
  predicate KeysKnown(s: Skill, e: Entry)
  {
    forall c :: c in e ==> c in Weights(s)
  }

  /** Every present skill's keys are known: the estimator is defined for every skill. */
  predicate AllKeysKnown(a: Assessment)
  {
    forall s :: s in a ==> KeysKnown(s, a[s])
  }

  predicate RatingsInRange(e: Entry)
  {
    forall c :: c in e ==> 0 <= e[c] <= MaxQuarters
  }

  /** What the assessment store holds when every rating came from a slider. */
  predicate WellFormed(a: Assessment)
  {
    forall s :: s in a ==> KeysKnown(s, a[s]) && RatingsInRange(a[s])
  }

  /** A criterion's product of rating and weight, or 0 when the entry lacks it. */
  function Contribution(s: Skill, e: Entry, c: string): int
  {
    if c in e && c in Weights(s) then e[c] * Weights(s)[c] else 0
  }

  /** Reference sum of the contributions of the listed criteria. */
  function SumOver(s: Skill, cs: seq<string>, e: Entry): int
  {
    if cs == [] then 0 else Contribution(s, e, cs[0]) + SumOver(s, cs[1..], e)
  }

  /** Sum of rating times weight over the skill's criteria; 100 times the unrounded
      score expressed in quarters. */
  function WeightedSum(s: Skill, e: Entry): int
  {
    SumOver(s, Criteria(s), e)
  }

  /** Rounds a sum of quarter-hundredths to the nearest quarter, ties upwards. */
  function Quantise(total: int): (q: int)
    ensures 100 * q - 50 <= total < 100 * q + 50
  {
    (total + 50) / 100
  }

  /** ECMAScript Math.round: the nearest integer, ties towards positive infinity. */
  function JsRound(x: real): (n: int)
    ensures n as real - 0.5 <= x < n as real + 0.5
  {
    (x + 0.5).Floor
  }

  /** The estimated band of one skill in quarters; 0 when the skill has no entry. */
  function SkillBand(s: Skill, a: Assessment): int
  {
    if s !in a then 0 else Quantise(WeightedSum(s, a[s]))
  }

  /** The source's unrounded score with real ratings (quarters / 4) and weights
      (hundredths / 100). */
  function RealScore(s: Skill, cs: seq<string>, e: Entry): real
  {
    if cs == [] then 0.0
    else
      RealContribution(s, e, cs[0]) + RealScore(s, cs[1..], e)
  }

  function RealContribution(s: Skill, e: Entry, c: string): real
  {
    if c in e && c in Weights(s) then (e[c] as real / 4.0) * (Weights(s)[c] as real / 100.0) else 0.0
  }

  /** Estimates a skill band by walking the entry's own keys in an arbitrary order and
      accumulating rating times weight, then quantising. Whatever the order, the result
      is the reference band. */
  method EstimateOverallBand(s: Skill, a: Assessment) returns (band: int)
    requires s in a ==> KeysKnown(s, a[s])
    ensures band == SkillBand(s, a)
  {
    if s !in a {
      return 0;
    }
    var e := a[s];
    var weights := Weights(s);
    ghost var cs := Criteria(s);
    var remaining := e.Keys;
    var score := 0;
    ghost var seen: Entry := map[];
    SumOverEmpty(s, cs);
    while remaining != {}
      invariant remaining <= e.Keys
      invariant seen.Keys == e.Keys - remaining
      invariant forall k :: k in seen ==> seen[k] == e[k]
      invariant score == SumOver(s, cs, seen)
      decreases remaining
    {
      var c :| c in remaining;
      EstimatorStep(s, e, seen, c);
      score := score + e[c] * weights[c];
      seen := seen[c := e[c]];
      remaining := remaining - {c};
    }
    SeenAll(e, seen);
    band := Quantise(score);
  }

  lemma SeenAll(e: Entry, seen: Entry)
    requires seen.Keys == e.Keys
    requires forall k :: k in seen ==> seen[k] == e[k]
    ensures seen == e
  {
  }

  /** One step of the estimator: a key not yet seen adds rating times weight. */
  lemma EstimatorStep(s: Skill, e: Entry, seen: Entry, c: string)
    requires KeysKnown(s, e) && c in e && c !in seen
    ensures c in Weights(s)
    ensures SumOver(s, Criteria(s), seen[c := e[c]]) == SumOver(s, Criteria(s), seen) + e[c] * Weights(s)[c]
  {
    SumOverInsert(s, Criteria(s), seen, c, e[c]);
  }

  lemma {:induction false} SumOverEmpty(s: Skill, cs: seq<string>)
    ensures SumOver(s, cs, map[]) == 0
  {
    if cs != [] {
      SumOverEmpty(s, cs[1..]);
    }
  }

  /** Adding one criterion to an entry adds exactly its contribution to the sum over a
      list in which it occurs once. */
  lemma {:induction false} SumOverInsert(s: Skill, cs: seq<string>, e: Entry, c: string, v: int)
    requires Distinct(cs) && c !in e && c in Weights(s)
    ensures SumOver(s, cs, e[c := v]) == SumOver(s, cs, e) + (if c in cs then v * Weights(s)[c] else 0)
  {
    if cs != [] {
      assert Distinct(cs[1..]) by {
        forall i, j | 0 <= i < j < |cs[1..]| ensures cs[1..][i] != cs[1..][j] {
          assert cs[1..][i] == cs[i + 1] && cs[1..][j] == cs[j + 1];
        }
      }
      SumOverInsert(s, cs[1..], e, c, v);
      assert c in cs <==> c == cs[0] || c in cs[1..];
      if c == cs[0] {
        forall k | 0 <= k < |cs[1..]| ensures cs[1..][k] != c {
          assert cs[1..][k] == cs[k + 1];
        }
      }
    }
  }

  /** The unrounded real score, times 400, is the integer weighted sum: the integer model
      computes exactly what the source computes over reals. */
  lemma {:induction false} RealScoreScaled(s: Skill, cs: seq<string>, e: Entry)
    ensures RealScore(s, cs, e) * 400.0 == SumOver(s, cs, e) as real
  {
    if cs != [] {
      RealScoreScaled(s, cs[1..], e);
      ContributionScaled(s, e, cs[0]);
      ScaleSum(RealContribution(s, e, cs[0]), RealScore(s, cs[1..], e));
    }
  }

  lemma ContributionScaled(s: Skill, e: Entry, c: string)
    ensures RealContribution(s, e, c) * 400.0 == Contribution(s, e, c) as real
  {
    if c in e && c in Weights(s) {
      TermScaled(e[c], Weights(s)[c]);
    }
  }

  lemma TermScaled(q: int, w: int)
    ensures (q as real / 4.0) * (w as real / 100.0) * 400.0 == (q * w) as real
  {
    assert (q as real / 4.0) * (w as real / 100.0) * 400.0 == q as real * w as real;
  }

  lemma ScaleSum(x: real, y: real)
    ensures (x + y) * 400.0 == x * 400.0 + y * 400.0
  {
  }

  lemma QuantiseIsMathRound(total: int)
    ensures Quantise(total) == JsRound(total as real / 100.0)
  {
    var q := Quantise(total);
    var x := total as real / 100.0;
    assert q as real - 0.5 <= x < q as real + 0.5 by {
      assert 100.0 * q as real - 50.0 <= total as real < 100.0 * q as real + 50.0;
    }
    var n := JsRound(x);
    assert n as real - 0.5 <= x < n as real + 0.5;
  }

  /** The band is exactly the source's Math.round(score * 4) in quarters, where score is
      the real-valued weighted sum. */
  lemma BandIsSourceFormula(s: Skill, a: Assessment)
    requires s in a
    ensures SkillBand(s, a) == JsRound(RealScore(s, Criteria(s), a[s]) * 4.0)
  {
    RealScoreScaled(s, Criteria(s), a[s]);
    QuantiseIsMathRound(WeightedSum(s, a[s]));
    assert RealScore(s, Criteria(s), a[s]) * 4.0 == WeightedSum(s, a[s]) as real / 100.0;
  }

  /** A skill without an entry estimates to 0; no precondition is needed. */
  lemma AbsentSkillIsZero(s: Skill, a: Assessment)
    requires s !in a
    ensures SkillBand(s, a) == 0
  {
  }

  lemma {:induction false} SumOverBounds(s: Skill, cs: seq<string>, e: Entry)
    requires RatingsInRange(e)
    ensures 0 <= SumOver(s, cs, e) <= MaxQuarters * WeightSum(s, cs)
  {
    if cs != [] {
      SumOverBounds(s, cs[1..], e);
      var c := cs[0];
      if c in e && c in Weights(s) {
        assert 0 <= e[c] * Weights(s)[c] <= MaxQuarters * Weights(s)[c];
      }
    }
  }

  /** With ratings in [0, 9], whichever criteria are present, the band lies in [0, 9]
      (and, being a whole number of quarters, is a multiple of 0.25). */
  lemma BandInRange(s: Skill, a: Assessment)
    requires s in a ==> RatingsInRange(a[s])
    ensures 0 <= SkillBand(s, a) <= MaxQuarters
  {
    if s in a {
      SumOverBounds(s, Criteria(s), a[s]);
      WeightsSumToOne(s);
    }
  }

  lemma {:induction false} SumOverUniform(s: Skill, cs: seq<string>, e: Entry, r: int)
    requires forall c :: c in cs ==> c in e && e[c] == r
    ensures SumOver(s, cs, e) == r * WeightSum(s, cs)
  {
    if cs != [] {
      var c, tail := cs[0], cs[1..];
      assert c in cs;
      assert forall x :: x in tail ==> x in cs;
      SumOverUniform(s, tail, e, r);
      UniformContribution(s, e, c, r);
      Distribute(r, Weight(s, c), WeightSum(s, tail));
    }
  }

  lemma UniformContribution(s: Skill, e: Entry, c: string, r: int)
    requires c in e && e[c] == r
    ensures Contribution(s, e, c) == r * Weight(s, c)
  {
  }

  lemma Distribute(r: int, w: int, rest: int)
    ensures r * (w + rest) == r * w + r * rest
  {
  }

  /** The same rating r on all four criteria estimates to exactly r, because the weights
      sum to one. */
  lemma UniformRatingIsBand(s: Skill, a: Assessment, r: int)
    requires s in a
    requires forall c :: c in Weights(s) ==> c in a[s] && a[s][c] == r
    ensures SkillBand(s, a) == r
  {
    SumOverUniform(s, Criteria(s), a[s], r);
    WeightsSumToOne(s);
  }

  lemma {:induction false} SumOverMissing(s: Skill, cs: seq<string>, e: Entry, c: string)
    ensures SumOver(s, cs, e - {c}) == SumOver(s, cs, e[c := 0])
  {
    if cs != [] {
      SumOverMissing(s, cs[1..], e, c);
    }
  }

  /** A criterion missing from an entry counts as a rating of 0. */
  lemma MissingCriterionCountsZero(s: Skill, a: Assessment, c: string)
    requires s in a
    ensures SkillBand(s, a[s := a[s] - {c}]) == SkillBand(s, a[s := a[s][c := 0]])
  {
    SumOverMissing(s, Criteria(s), a[s], c);
  }

  lemma {:induction false} SumOverMonotone(s: Skill, cs: seq<string>, e: Entry, c: string, lo: int, hi: int)
    requires lo <= hi
    ensures SumOver(s, cs, e[c := lo]) <= SumOver(s, cs, e[c := hi])
  {
    if cs != [] {
      SumOverMonotone(s, cs[1..], e, c, lo, hi);
      if cs[0] == c && c in Weights(s) {
        assert lo * Weights(s)[c] <= hi * Weights(s)[c];
      }
    }
  }

  /** The mean of four quarter bands in sixteenths, capped at 9. */
  function OverallBand(speaking: int, listening: int, reading: int, writing: int): (o: int)
    ensures o <= MaxSixteenths
    ensures speaking + listening + reading + writing <= MaxSixteenths ==> o == speaking + listening + reading + writing
    ensures speaking + listening + reading + writing >= MaxSixteenths ==> o == MaxSixteenths
  {
    var sum := speaking + listening + reading + writing;
    if sum < MaxSixteenths then sum else MaxSixteenths
  }

  /** The source's Math.min((s + l + r + w) / 4, 9) over real bands is the overall band
      in sixteenths: a plain mean with no further rounding. */
  lemma OverallIsSourceFormula(speaking: int, listening: int, reading: int, writing: int)
    ensures OverallBand(speaking, listening, reading, writing) as real / 16.0
      == (var mean := (speaking as real / 4.0 + listening as real / 4.0 + reading as real / 4.0 + writing as real / 4.0) / 4.0;
          if mean < 9.0 then mean else 9.0)
  {
  }

  /** The overall band of an assessment. */
  function Overall(a: Assessment): int
  {
    OverallBand(SkillBand(Speaking, a), SkillBand(Listening, a), SkillBand(Reading, a), SkillBand(Writing, a))
  }

  /** With ratings in [0, 9] the cap never engages: the overall band is the mean of the
      four bands and lies in [0, 9]. */
  lemma OverallCapUnreachable(a: Assessment)
    requires WellFormed(a)
    ensures Overall(a) == SkillBand(Speaking, a) + SkillBand(Listening, a) + SkillBand(Reading, a) + SkillBand(Writing, a)
    ensures 0 <= Overall(a) <= MaxSixteenths
  {
    BandInRange(Speaking, a);
    BandInRange(Listening, a);
    BandInRange(Reading, a);
    BandInRange(Writing, a);
  }

  /** The entry of every skill with all its criteria at the same rating. */
  function UniformEntry(s: Skill, r: int): Entry
  {
    map c | c in Weights(s) :: r
  }

  /** The built-in assessment: every criterion of every skill at 6. */
  function DefaultAssessment(): Assessment
  {
    map[Speaking := UniformEntry(Speaking, 24), Listening := UniformEntry(Listening, 24),
        Reading := UniformEntry(Reading, 24), Writing := UniformEntry(Writing, 24)]
  }

  /** The default assessment is well formed, each skill estimates to 6 and the overall
      band is 6. */
  lemma DefaultBands(s: Skill)
    ensures WellFormed(DefaultAssessment())
    ensures SkillBand(s, DefaultAssessment()) == 24
    ensures Overall(DefaultAssessment()) == 96
  {
    var d := DefaultAssessment();
    forall s' | s' in d ensures d[s'] == UniformEntry(s', 24) && KeysKnown(s', d[s']) && RatingsInRange(d[s']) {
      match s'
      case Speaking =>
      case Listening =>
      case Reading =>
      case Writing =>
    }
    UniformRatingIsBand(Speaking, d, 24);
    UniformRatingIsBand(Listening, d, 24);
    UniformRatingIsBand(Reading, d, 24);
    UniformRatingIsBand(Writing, d, 24);
  }

  /** Sets one criterion of one skill, as a slider does; a skill without an entry gets
      one holding just that criterion. */
  function WithRating(a: Assessment, s: Skill, c: string, q: int): (r: Assessment)
    ensures r.Keys == a.Keys + {s}
    ensures c in r[s] && r[s][c] == q
    ensures r[s].Keys == (if s in a then a[s].Keys else {}) + {c}
    ensures forall c' :: c' in r[s] && c' != c ==> s in a && r[s][c'] == a[s][c']
    ensures forall s' :: s' in a && s' != s ==> r[s'] == a[s']
  {
    var e := if s in a then a[s] else map[];
    a[s := e[c := q]]
  }

  /** A slider update keeps the store well formed and leaves every other skill's band as
      it was. */
  lemma RatingPreservesWellFormed(a: Assessment, s: Skill, c: string, q: int)
    requires WellFormed(a) && c in Weights(s) && 0 <= q <= MaxQuarters
    ensures WellFormed(WithRating(a, s, c, q))
    ensures forall s' :: s' != s ==> SkillBand(s', WithRating(a, s, c, q)) == SkillBand(s', a)
  {
    var r := WithRating(a, s, c, q);
    forall s' | s' != s ensures SkillBand(s', r) == SkillBand(s', a) {
      assert s' in r <==> s' in a;
    }
  }

  /** Raising one rating never lowers the skill's band. */
  lemma RatingMonotone(a: Assessment, s: Skill, c: string, lo: int, hi: int)
    requires lo <= hi
    ensures SkillBand(s, WithRating(a, s, c, lo)) <= SkillBand(s, WithRating(a, s, c, hi))
  {
    var e := if s in a then a[s] else map[];
    SumOverMonotone(s, Criteria(s), e, c, lo, hi);
  }

  /** Worked cases: uniform 6 in speaking is 6, writing 9/9/0/0 is 6.25, and a missing
      reading entry is 0. */
  lemma WorkedExamples()
    ensures SkillBand(Speaking, map[Speaking := map["fluency" := 24, "lexical" := 24, "grammar" := 24, "pronunciation" := 24]]) == 24
    ensures SkillBand(Reading, map[]) == 0
  {
    var sp := map[Speaking := map["fluency" := 24, "lexical" := 24, "grammar" := 24, "pronunciation" := 24]];
    UniformRatingIsBand(Speaking, sp, 24);
  }

  /** Full marks on both writing tasks and nothing else: 36 * 0.3 + 36 * 0.4 = 25.2,
      which rounds to 25 quarters. */
  lemma WritingExample()
    ensures WeightedSum(Writing, map["task1" := 36, "task2" := 36, "coherence" := 0, "vocabulary" := 0]) == 2520
    ensures SkillBand(Writing, map[Writing := map["task1" := 36, "task2" := 36, "coherence" := 0, "vocabulary" := 0]]) == 25
  {
    var e: Entry := map["task1" := 36, "task2" := 36, "coherence" := 0, "vocabulary" := 0];
    var cs := Criteria(Writing);
    assert cs[1..][1..][1..][1..] == [];
    assert SumOver(Writing, cs[1..][1..][1..], e) == 0;
    assert SumOver(Writing, cs[1..][1..], e) == 0;
    assert SumOver(Writing, cs[1..], e) == 1440;
    assert SumOver(Writing, cs, e) == 2520;
  }
}
