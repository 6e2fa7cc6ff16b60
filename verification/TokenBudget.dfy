/** Fitting recalled memories into a prompt's token budget. */
module TokenBudget {

  const CHARS_PER_TOKEN: nat := 4

  /** The number of characters divided by four, rounded up. */
  function Estimate(text: string): nat {
    (|text| + 3) / CHARS_PER_TOKEN
  }

  function Max(a: real, b: real): real {
    if a > b then a else b
  }

  /** One more than the place of the last newline, 0 if there is none. */
  function AfterLastNewline(text: string): nat {
    if text == [] then 0
    else if text[|text| - 1] == '\n' then |text|
    else AfterLastNewline(text[..|text| - 1])
  }

  lemma {:induction false} AfterLastNewlineSpec(text: string)
    ensures AfterLastNewline(text) <= |text|
    ensures AfterLastNewline(text) > 0 ==> text[AfterLastNewline(text) - 1] == '\n'
    ensures forall i :: AfterLastNewline(text) <= i < |text| ==> text[i] != '\n'
  {
    if text != [] && text[|text| - 1] != '\n' { AfterLastNewlineSpec(text[..|text| - 1]); }
  }

  /** Cut to a number of tokens, at the last newline if that keeps more than half. */
  function Trim(text: string, tokens: real): string
    requires tokens >= 0.0
  {
    var maxChars := tokens * 4.0;
    if |text| as real <= maxChars then text
    else
      var trimmed := text[..maxChars.Floor];
      AfterLastNewlineSpec(trimmed);
      var last := AfterLastNewline(trimmed) - 1;
      if last as real > maxChars * 0.5 then trimmed[..last] else trimmed
  }

  /**
   A trimmed text is a prefix within the budget: all of it if it fits, else more than half the
   budget, ending before a newline or at the limit.
   */
  lemma {:induction false} TrimSpec(text: string, tokens: real)
    requires tokens >= 0.0
    ensures Trim(text, tokens) <= text && |Trim(text, tokens)| as real <= tokens * 4.0
    ensures |text| as real <= tokens * 4.0 <==> Trim(text, tokens) == text
    ensures |text| as real > tokens * 4.0 ==>
              var n, limit := |Trim(text, tokens)|, (tokens * 4.0).Floor;
              && (n == limit || (n as real > tokens * 2.0 && text[n] == '\n'))
              && forall i :: 0 <= i < limit && i as real > tokens * 2.0 && (n == limit || i > n) ==> text[i] != '\n'
  {
    var maxChars := tokens * 4.0;
    if |text| as real > maxChars {
      var trimmed := text[..maxChars.Floor];
      AfterLastNewlineSpec(trimmed);
    }
  }

  function EducationShare(budget: real): int {
    (budget * 0.2).Floor
  }

  /** The tokens left for recall by a static section, given the share set aside for it. */
  function RecallTokens(budget: real, share: int, staticTokens: nat): real {
    var overflow := Max(0.0, (staticTokens - share) as real);
    Max(0.0, budget - share as real - overflow)
  }

  /** The recalled block that goes into the prompt. */
  function Fit(budget: real, staticSection: string, recalled: string): string {
    if budget <= 0.0 then recalled
    else
      var tokens := RecallTokens(budget, EducationShare(budget), Estimate(staticSection));
      if tokens <= 0.0 then "" else if recalled == "" then recalled else Trim(recalled, tokens)
  }

  function Assemble(budget: real, staticSection: string, recalled: string): string {
    staticSection + Fit(budget, staticSection, recalled)
  }

  /** Whatever share is set aside, recall gets what the larger of the share and the static section leaves. */
  lemma {:induction false} RecallGetsTheRest(budget: real, share: int, staticTokens: nat)
    ensures RecallTokens(budget, share, staticTokens) ==
            Max(0.0, budget - Max(share as real, staticTokens as real))
  {
  }

  function Ceil(r: real): int {
    -(-r).Floor
  }

  /** The prompt's estimate is at most the budget, rounded up, unless the static section alone exceeds it. */
  lemma {:induction false} StaysWithinBudget(budget: real, staticSection: string, recalled: string)
    requires budget > 0.0
    ensures var total := Estimate(Assemble(budget, staticSection, recalled));
            total <= Ceil(budget) || total == Estimate(staticSection)
  {
    var s := Estimate(staticSection);
    var tokens := RecallTokens(budget, EducationShare(budget), s);
    RecallGetsTheRest(budget, EducationShare(budget), s);
    if tokens > 0.0 {
      TrimSpec(recalled, tokens);
      var n := |Assemble(budget, staticSection, recalled)|;
      assert n as real <= 4.0 * budget;
      assert n <= 4 * Ceil(budget);
    }
  }

  /** The promise for one prompt: its estimate is within the budget or that of the static section. */
  predicate Within(budget: real, staticSection: string, recalled: string) {
    Estimate(Assemble(budget, staticSection, recalled)) as real <= Max(budget, Estimate(staticSection) as real)
  }

  /** Every prompt is within the budget exactly if the budget's fraction is below a quarter of a token. */
  lemma {:induction false} PromiseKeptIff(budget: real)
    requires budget > 0.0
    ensures (forall s, r :: Within(budget, s, r)) <==> budget - budget.Floor as real < 0.25
  {
    if budget - budget.Floor as real < 0.25 {
      forall s, r ensures Within(budget, s, r) { SmallFractionKeepsPromise(budget, s, r); }
    } else {
      var s := seq(4 * budget.Floor, _ => 'a');
      LargeFractionBreaksPromise(budget, s);
      assert !Within(budget, s, "a");
    }
  }

  lemma {:induction false} SmallFractionKeepsPromise(budget: real, staticSection: string, recalled: string)
    requires budget > 0.0 && budget - budget.Floor as real < 0.25
    ensures Within(budget, staticSection, recalled)
  {
    var s := Estimate(staticSection);
    var tokens := RecallTokens(budget, EducationShare(budget), s);
    RecallGetsTheRest(budget, EducationShare(budget), s);
    if tokens > 0.0 {
      TrimSpec(recalled, tokens);
      var n := |Assemble(budget, staticSection, recalled)|;
      assert n as real <= 4.0 * budget;
      assert n <= 4 * budget.Floor;
    }
  }

  /** A static section that fills the whole tokens leaves room for a character that costs one more. */
  lemma {:induction false} LargeFractionBreaksPromise(budget: real, staticSection: string)
    requires budget > 0.0 && budget - budget.Floor as real >= 0.25 && |staticSection| == 4 * budget.Floor
    ensures !Within(budget, staticSection, "a")
  {
    assert Estimate(staticSection) == budget.Floor;
    KeptWholeIff(budget, staticSection, "a");
    assert Estimate(staticSection + "a") == budget.Floor + 1;
  }

  lemma {:induction false} WholeBudgets(budget: nat, staticSection: string, recalled: string)
    requires budget > 0
    ensures var total := Estimate(Assemble(budget as real, staticSection, recalled));
            total <= if budget > Estimate(staticSection) then budget else Estimate(staticSection)
  {
    PromiseKeptIff(budget as real);
    assert Within(budget as real, staticSection, recalled);
  }

  /**
   The recalled block is kept whole exactly if it fits what is left beside the larger of the
   education share and the static section.
   */
  lemma {:induction false} KeptWholeIff(budget: real, staticSection: string, recalled: string)
    requires budget > 0.0
    ensures Assemble(budget, staticSection, recalled) == staticSection + recalled <==>
            || recalled == ""
            || |recalled| as real <=
               4.0 * (budget - Max((budget / 5.0).Floor as real, Estimate(staticSection) as real))
  {
    var tokens := RecallTokens(budget, EducationShare(budget), Estimate(staticSection));
    RecallGetsTheRest(budget, EducationShare(budget), Estimate(staticSection));
    if tokens > 0.0 { TrimSpec(recalled, tokens); }
    var fit := Fit(budget, staticSection, recalled);
    assert (staticSection + fit)[|staticSection|..] == fit;
    assert (staticSection + recalled)[|staticSection|..] == recalled;
  }

  /** Without a budget nothing is cut; with one, the static section never is. */
  lemma {:induction false} StaticIsNeverCut(budget: real, staticSection: string, recalled: string)
    ensures staticSection <= Assemble(budget, staticSection, recalled) <= staticSection + recalled
    ensures budget <= 0.0 ==> Assemble(budget, staticSection, recalled) == staticSection + recalled
  {
    var tokens := RecallTokens(budget, EducationShare(budget), Estimate(staticSection));
    if budget > 0.0 && tokens > 0.0 { TrimSpec(recalled, tokens); }
    var fit := Fit(budget, staticSection, recalled);
    assert fit <= recalled;
    assert staticSection + recalled == staticSection + fit + recalled[|fit|..];
  }

  /** A fractional budget can be exceeded by rounding. */
  lemma {:induction false} FractionalBudgetExceeded()
    ensures Estimate(Assemble(0.5, "", "ab")) as real > 0.5
  {
    assert EducationShare(0.5) == 0;
    assert RecallTokens(0.5, 0, 0) == 0.5;
    assert Assemble(0.5, "", "ab") == "ab";
  }
}
