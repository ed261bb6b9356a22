/** The text-to-scale helpers of the scenario script
    assets/alimentos/pipeline_teste.py: income, cooking time and health
    answers become points 2, 5 or 8 of the 0..10 universe of the priority
    fuzzy system, and the resulting priority sets how many generations the
    optimiser runs. */
module Scenarios {
  import opened Common
  import opened Text

  /** `(s or "").lower()`: a missing answer reads as the empty string. */
  function LowerOrEmpty(s: Option<string>): string {
    match s
    case None => ""
    case Some(t) => Lower(t)
  }

  /** The shape the three mappers share: 2.0 when the "low" word occurs, else
      8.0 when the "high" word occurs, else the middle 5.0. */
  function Graded(l: string, low: string, high: string): real {
    if Contains(l, low) then 2.0
    else if Contains(l, high) then 8.0
    else 5.0
  }

  /** `mapear_renda_fuzzy` (assets/alimentos/pipeline_teste.py:24-34). */
  function MapIncome(renda: Option<string>): real {
    Graded(LowerOrEmpty(renda), "baixa", "alta")
  }

  /** `mapear_tempo_fuzzy` (assets/alimentos/pipeline_teste.py:37-47). */
  function MapTime(tempo: Option<string>): real {
    Graded(LowerOrEmpty(tempo), "pouco", "muito")
  }

  /** `mapear_saude_fuzzy` (assets/alimentos/pipeline_teste.py:50-60). */
  function MapHealth(saude: Option<string>): real {
    Graded(LowerOrEmpty(saude), "delicada", "boa")
  }

  /** Each grade is one of three points of the 0..10 universe, chosen by
      which word occurs, the "low" word taking precedence. */
  lemma GradedLaws(l: string, low: string, high: string)
    ensures Graded(l, low, high) in {2.0, 5.0, 8.0}
    ensures 0.0 <= Graded(l, low, high) <= 10.0
    ensures Graded(l, low, high) == 2.0 <==> Contains(l, low)
    ensures Graded(l, low, high) == 8.0 <==> !Contains(l, low) && Contains(l, high)
    ensures Graded(l, low, high) == 5.0 <==> !Contains(l, low) && !Contains(l, high)
  {
  }

  /** The empty string contains no non-empty word, so a missing answer is
      the middle grade. */
  lemma MissingIsMiddle(low: string, high: string)
    requires |low| > 0 && |high| > 0
    ensures Graded(LowerOrEmpty(None), low, high) == 5.0
  {
  }

  /** The mappers ignore case: an answer and its lower-case form map alike. */
  lemma MappersIgnoreCase(s: string)
    ensures MapIncome(Some(s)) == MapIncome(Some(Lower(s)))
    ensures MapTime(Some(s)) == MapTime(Some(Lower(s)))
    ensures MapHealth(Some(s)) == MapHealth(Some(Lower(s)))
  {
    LowerIdempotent(s);
  }

  /** The mapped value of every answer, missing ones included, is 2, 5 or 8,
      and the missing answer is the middle one. */
  lemma MappersInRange(s: Option<string>)
    ensures MapIncome(s) in {2.0, 5.0, 8.0} && MapTime(s) in {2.0, 5.0, 8.0} && MapHealth(s) in {2.0, 5.0, 8.0}
    ensures MapIncome(None) == 5.0 && MapTime(None) == 5.0 && MapHealth(None) == 5.0
  {
    GradedLaws(LowerOrEmpty(s), "baixa", "alta");
    GradedLaws(LowerOrEmpty(s), "pouco", "muito");
    GradedLaws(LowerOrEmpty(s), "delicada", "boa");
  }

  /** The three scenarios of the script: low income, little time and
      delicate health map to 2 (assets/alimentos/pipeline_teste.py:67-92). */
  lemma LowScenarioGrades(a: string, b: string, c: string)
    requires a == "baixa" && b == "pouco" && c == "delicada"
    ensures MapIncome(Some(a)) == 2.0 && MapTime(Some(b)) == 2.0 && MapHealth(Some(c)) == 2.0
  {
    LowWord(a, "alta");
    LowWord(b, "muito");
    LowWord(c, "boa");
  }

  /** The high scenario: "alta", "muito" and "boa" map to 8. */
  lemma HighScenarioGrades(a: string, b: string, c: string)
    requires a == "alta" && b == "muito" && c == "boa"
    ensures MapIncome(Some(a)) == 8.0 && MapTime(Some(b)) == 8.0 && MapHealth(Some(c)) == 8.0
  {
    assert !Contains(a, "baixa") by { ShorterHasNot(a, "baixa"); }
    assert !Contains(b, "pouco") by { assert b[0] != 'p'; assert !StartsWith(b, "pouco"); ShorterHasNot(b[1..], "pouco"); }
    assert !Contains(c, "delicada") by { ShorterHasNot(c, "delicada"); }
    HighWord(a, "baixa");
    HighWord(b, "pouco");
    HighWord(c, "delicada");
  }

  /** The middle scenario: "media", "medio" and "ok" map to 5. */
  lemma MiddleScenarioGrades(a: string, b: string, c: string)
    requires a == "media" && b == "medio" && c == "ok"
    ensures MapIncome(Some(a)) == 5.0 && MapTime(Some(b)) == 5.0 && MapHealth(Some(c)) == 5.0
  {
    MiddleIncome(a);
    MiddleTime(b);
    MiddleHealth(c);
  }

  lemma MiddleIncome(a: string)
    requires a == "media"
    ensures MapIncome(Some(a)) == 5.0
  {
    assert !Contains(a, "baixa") by { assert !StartsWith(a, "baixa"); ShorterHasNot(a[1..], "baixa"); }
    assert !Contains(a, "alta") by {
      assert a[..4][0] != "alta"[0] && a[1..][..4][0] != "alta"[0];
      ShorterHasNot(a[1..][1..], "alta");
    }
    MiddleWord(a, "baixa", "alta");
  }

  lemma MiddleTime(b: string)
    requires b == "medio"
    ensures MapTime(Some(b)) == 5.0
  {
    assert !Contains(b, "pouco") by { assert b[..5][0] != "pouco"[0]; ShorterHasNot(b[1..], "pouco"); }
    assert !Contains(b, "muito") by { assert b[..5][1] != "muito"[1]; ShorterHasNot(b[1..], "muito"); }
    MiddleWord(b, "pouco", "muito");
  }

  lemma MiddleHealth(c: string)
    requires c == "ok"
    ensures MapHealth(Some(c)) == 5.0
  {
    assert !Contains(c, "delicada") by { ShorterHasNot(c, "delicada"); }
    assert !Contains(c, "boa") by { ShorterHasNot(c, "boa"); }
    MiddleWord(c, "delicada", "boa");
  }

  /** A lower-case answer holding neither word gets the middle grade. */
  lemma MiddleWord(w: string, low: string, high: string)
    requires forall i :: 0 <= i < |w| ==> 'a' <= w[i] <= 'z'
    requires !Contains(w, low) && !Contains(w, high)
    ensures Graded(LowerOrEmpty(Some(w)), low, high) == 5.0
  {
    LowerOfLowerCase(w);
  }

  /** A lower-case word answered as itself gets the low grade. */
  lemma LowWord(w: string, high: string)
    requires forall i :: 0 <= i < |w| ==> 'a' <= w[i] <= 'z'
    ensures Graded(LowerOrEmpty(Some(w)), w, high) == 2.0
  {
    LowerOfLowerCase(w);
    assert StartsWith(w, w);
  }

  /** A lower-case word answered as itself, lacking the low word, gets the
      high grade. */
  lemma HighWord(w: string, low: string)
    requires forall i :: 0 <= i < |w| ==> 'a' <= w[i] <= 'z'
    requires !Contains(w, low)
    ensures Graded(LowerOrEmpty(Some(w)), low, w) == 8.0
  {
    LowerOfLowerCase(w);
    assert StartsWith(w, w);
  }

  /** A word longer than the text does not occur in it. */
  lemma {:induction false} ShorterHasNot(s: string, w: string)
    requires |s| < |w|
    ensures !Contains(s, w)
    decreases |s|
  {
    if s != [] {
      ShorterHasNot(s[1..], w);
    }
  }

  // ---------------------------------------------------------------------------
  // Number of generations
  // ---------------------------------------------------------------------------

  /** `int(20 + 20 * prioridade_norm)` with `prioridade_norm = prioridade / 10`
      (assets/alimentos/pipeline_teste.py:129-141): `int` truncates. */
  function Generations(prioridade: real): int {
    Trunc(20.0 + 20.0 * (prioridade / 10.0))
  }

  /** A priority in 0..10 gives 20 to 40 generations, 40 only for the top
      priority. */
  lemma GenerationsBounded(prioridade: real)
    requires 0.0 <= prioridade <= 10.0
    ensures 20 <= Generations(prioridade) <= 40
    ensures Generations(prioridade) == 40 <==> prioridade == 10.0
  {
  }

  /** A higher priority never gives fewer generations. */
  lemma GenerationsMonotone(p: real, q: real)
    requires 0.0 <= p <= q
    ensures Generations(p) <= Generations(q)
  {
    var x, y := 20.0 + 20.0 * (p / 10.0), 20.0 + 20.0 * (q / 10.0);
    assert x <= y;
  }
}
