/**
 Results, dead letters, tokens and cost of a job. Results are keyed by the position of their
 prompt in the batch.
 */
module Accounting {
  import opened Models

  type Results = map<nat, InferenceResult>

  // ---------------------------------------------------------------- work items

  function Digits(n: nat): string {
    if n < 10 then ["0123456789"[n]] else Digits(n / 10) + ["0123456789"[n % 10]]
  }

  function DigitValue(c: char): nat {
    if '0' <= c <= '9' then (c as int) - ('0' as int) else 0
  }

  function Value(s: string): nat {
    if s == [] then 0 else 10 * Value(s[..|s| - 1]) + DigitValue(s[|s| - 1])
  }

  lemma {:induction false} ValueOfDigits(n: nat)
    ensures Value(Digits(n)) == n
  {
    if n < 10 {
      assert Digits(n)[..0] == [];
      assert DigitValue("0123456789"[n]) == n;
    } else {
      ValueOfDigits(n / 10);
      assert Digits(n)[..|Digits(n)| - 1] == Digits(n / 10);
      assert DigitValue("0123456789"[n % 10]) == n % 10;
    }
  }

  /** The caller's id, or a generated one when it is missing or empty. */
  function ItemId(p: PromptItem, i: nat): string {
    if p.id.Some? && p.id.value != "" then p.id.value else "prompt-" + Digits(i + 1)
  }

  function WorkItems(prompts: seq<PromptItem>): (items: seq<WorkItem>)
    ensures |items| == |prompts|
    ensures forall i :: 0 <= i < |items| ==> items[i] == WorkItem(i, ItemId(prompts[i], i), prompts[i].prompt)
  {
    seq(|prompts|, i requires 0 <= i < |prompts| => WorkItem(i, ItemId(prompts[i], i), prompts[i].prompt))
  }

  /**
   The items of a batch: one per prompt, in order, with the prompt's text; under the caller's
   id if there is one, else under `prompt-` and the position counted from one.
   */
  lemma ItemsOfBatch(prompts: seq<PromptItem>, i: nat)
    requires i < |prompts|
    ensures |WorkItems(prompts)| == |prompts|
    ensures var item, p := WorkItems(prompts)[i], prompts[i];
            && item.index == i && item.prompt == p.prompt
            && (p.id.Some? && p.id.value != "" ==> item.id == p.id.value)
            && (p.id.None? || p.id.value == "" ==>
                  && |item.id| > 7 && item.id[..7] == "prompt-" && Value(item.id[7..]) == i + 1
                  && forall k :: 7 <= k < |item.id| ==> '0' <= item.id[k] <= '9')
  {
    ValueOfDigits(i + 1);
    DigitsAreDigits(i + 1);
    var name := "prompt-" + Digits(i + 1);
    assert name[..7] == "prompt-" && name[7..] == Digits(i + 1);
  }

  lemma {:induction false} DigitsAreDigits(n: nat)
    ensures |Digits(n)| > 0 && forall k :: 0 <= k < |Digits(n)| ==> '0' <= Digits(n)[k] <= '9'
    decreases n
  {
    if n >= 10 { DigitsAreDigits(n / 10); }
  }

  /** Prompts submitted without ids, or with empty ones, get pairwise different ones. */
  lemma GeneratedIdsDiffer(prompts: seq<PromptItem>, i: nat, j: nat)
    requires i < j < |prompts|
    requires (prompts[i].id.None? || prompts[i].id.value == "") && (prompts[j].id.None? || prompts[j].id.value == "")
    ensures WorkItems(prompts)[i].id != WorkItems(prompts)[j].id
  {
    DigitsDiffer(i + 1, j + 1);
    PrefixedDiffer("prompt-", Digits(i + 1), Digits(j + 1));
  }

  lemma DigitsDiffer(m: nat, n: nat)
    requires m != n
    ensures Digits(m) != Digits(n)
  {
    ValueOfDigits(m);
    ValueOfDigits(n);
  }

  lemma PrefixedDiffer(prefix: string, a: string, b: string)
    requires a != b
    ensures prefix + a != prefix + b
  {
    assert (prefix + a)[|prefix|..] == a;
    assert (prefix + b)[|prefix|..] == b;
  }

  // ---------------------------------------------------------------- results in order

  /** The results of the first `n` prompts, in submission order. */
  function Ordered(m: Results, n: nat): seq<InferenceResult> {
    if n == 0 then [] else Ordered(m, n - 1) + (if n - 1 in m then [m[n - 1]] else [])
  }

  function Failures(rs: seq<InferenceResult>): seq<InferenceResult> {
    if rs == [] then []
    else Failures(rs[..|rs| - 1]) + (if rs[|rs| - 1].success then [] else [rs[|rs| - 1]])
  }

  function DeadLetter(m: Results, n: nat): seq<InferenceResult> {
    Failures(Ordered(m, n))
  }

  /** The positions of the failed prompts, in increasing order. */
  function FailedAt(m: Results, n: nat): (ks: seq<nat>)
    ensures forall i :: 0 <= i < |ks| ==> ks[i] < n && ks[i] in m && !m[ks[i]].success
    ensures forall i, j :: 0 <= i < j < |ks| ==> ks[i] < ks[j]
    ensures forall k :: k in m && k < n && !m[k].success ==> k in ks
  {
    if n == 0 then [] else FailedAt(m, n - 1) + (if n - 1 in m && !m[n - 1].success then [n - 1] else [])
  }

  /** The dead letters are exactly the failed results, in submission order. */
  lemma {:induction false} DeadLetterInOrder(m: Results, n: nat)
    ensures |DeadLetter(m, n)| == |FailedAt(m, n)|
    ensures forall i :: 0 <= i < |DeadLetter(m, n)| ==> DeadLetter(m, n)[i] == m[FailedAt(m, n)[i]]
  {
    if n > 0 {
      DeadLetterInOrder(m, n - 1);
      if n - 1 in m {
        assert Ordered(m, n)[..|Ordered(m, n)| - 1] == Ordered(m, n - 1);
      } else {
        assert Ordered(m, n) == Ordered(m, n - 1);
      }
    }
  }

  // ---------------------------------------------------------------- sums over results

  function Tally(m: Results, n: nat, f: InferenceResult -> int): int {
    if n == 0 then 0 else Tally(m, n - 1, f) + (if n - 1 in m then f(m[n - 1]) else 0)
  }

  function TallyReal(m: Results, n: nat, f: InferenceResult -> real): real {
    if n == 0 then 0.0 else TallyReal(m, n - 1, f) + (if n - 1 in m then f(m[n - 1]) else 0.0)
  }

  lemma {:induction false} TallyInsert(m: Results, n: nat, f: InferenceResult -> int, k: nat, r: InferenceResult)
    requires k !in m
    ensures Tally(m[k := r], n, f) == Tally(m, n, f) + (if k < n then f(r) else 0)
  {
    if n > 0 { TallyInsert(m, n - 1, f, k, r); }
  }

  lemma {:induction false} TallyRealInsert(m: Results, n: nat, f: InferenceResult -> real, k: nat, r: InferenceResult)
    requires k !in m
    ensures TallyReal(m[k := r], n, f) == TallyReal(m, n, f) + (if k < n then f(r) else 0.0)
  {
    if n > 0 { TallyRealInsert(m, n - 1, f, k, r); }
  }

  function Success(r: InferenceResult): int {
    if r.success then 1 else 0
  }

  function Failure(r: InferenceResult): int {
    if r.success then 0 else 1
  }

  function InputTokens(r: InferenceResult): int {
    r.inputTokens
  }

  function OutputTokens(r: InferenceResult): int {
    r.outputTokens
  }

  /** As many dead letters as results counted failed. */
  lemma {:induction false} DeadLetterCount(m: Results, n: nat)
    ensures |DeadLetter(m, n)| == Tally(m, n, Failure)
  {
    if n > 0 {
      DeadLetterCount(m, n - 1);
      if n - 1 in m {
        assert Ordered(m, n)[..|Ordered(m, n)| - 1] == Ordered(m, n - 1);
      } else {
        assert Ordered(m, n) == Ordered(m, n - 1);
      }
    }
  }

  // ---------------------------------------------------------------- tokens and cost

  function Ceiling(x: real): int {
    -((-x).Floor)
  }

  function EstimateTokens(text: string, charsPerToken: real): int
    requires charsPerToken != 0.0
  {
    Max(1, Ceiling(|text| as real / charsPerToken))
  }

  /** The least count of tokens that holds the text, and never zero; a negative size holds any text in one. */
  predicate LeastFit(n: int, text: string, charsPerToken: real) {
    && n >= 1
    && (charsPerToken > 0.0 ==> n as real * charsPerToken >= |text| as real)
    && (n > 1 ==> charsPerToken > 0.0 && (n - 1) as real * charsPerToken < |text| as real)
  }

  /** A token estimate is the least fit of the text. */
  lemma EstimateIsLeastFit(text: string, charsPerToken: real)
    requires charsPerToken != 0.0
    ensures LeastFit(EstimateTokens(text, charsPerToken), text, charsPerToken)
  {
    var x := |text| as real / charsPerToken;
    assert Ceiling(x) as real >= x && (Ceiling(x) - 1) as real < x;
    if charsPerToken > 0.0 {
      assert x * charsPerToken == |text| as real;
      FitAround(EstimateTokens(text, charsPerToken), text, x, charsPerToken);
    } else {
      NoTextFits(|text| as real, charsPerToken);
    }
  }

  lemma FitAround(n: int, text: string, x: real, size: real)
    requires size > 0.0 && x * size == |text| as real && n >= 1
    requires n as real >= x && (n > 1 ==> (n - 1) as real < x)
    ensures LeastFit(n, text, size)
  {
    MulLeReal(x, n as real, size);
    if n > 1 { MulLtReal((n - 1) as real, x, size); }
  }

  lemma NoTextFits(len: real, size: real)
    requires len >= 0.0 && size < 0.0
    ensures len / size <= 0.0
  {
    var x := len / size;
    assert x * size == len;
    if x > 0.0 {
      MulLtReal(size, 0.0, x);
      assert false;
    }
  }

  function Price(inputTokens: int, outputTokens: int, costIn: real, costOut: real): real {
    inputTokens as real / 1000.0 * costIn + outputTokens as real / 1000.0 * costOut
  }

  /** Rounding to the nearest integer, ties to even. */
  function RoundEven(x: real): int {
    var low := x.Floor;
    var rest := x - low as real;
    if rest < 0.5 || (rest == 0.5 && low % 2 == 0) then low else low + 1
  }

  /** Rounding to eight decimal places. */
  function Round8(x: real): real {
    RoundEven(x * 100000000.0) as real / 100000000.0
  }

  const HALF_ULP := 0.000000005

  lemma Round8Close(x: real)
    ensures -HALF_ULP <= Round8(x) - x <= HALF_ULP
  {
    var y := x * 100000000.0;
    assert -0.5 <= RoundEven(y) as real - y <= 0.5;
  }

  /** A rounded cost is a whole number of units of the eighth place, the nearest one; a tie goes to the even one. */
  lemma Round8IsNearest(x: real) returns (units: int)
    ensures Round8(x) == units as real / 100000000.0
    ensures -0.5 <= units as real - x * 100000000.0 <= 0.5
    ensures units as real - x * 100000000.0 == 0.5 || units as real - x * 100000000.0 == -0.5 ==> units % 2 == 0
  {
    units := RoundEven(x * 100000000.0);
  }

  /** The price of tokens is additive: a thousand input tokens cost one rate, a thousand output tokens the other. */
  lemma PriceIsLinear(i: int, o: int, i': int, o': int, costIn: real, costOut: real)
    ensures Price(1000, 0, costIn, costOut) == costIn && Price(0, 1000, costIn, costOut) == costOut
    ensures Price(i + i', o + o', costIn, costOut) == Price(i, o, costIn, costOut) + Price(i', o', costIn, costOut)
  {
    Spread(i as real / 1000.0, i' as real / 1000.0, costIn);
    Spread(o as real / 1000.0, o' as real / 1000.0, costOut);
  }

  /** A listed cost of `units` of the eighth place, as near to the exact cost as such a number can be. */
  predicate Nearest(units: int, cost: real, exact: real) {
    cost == units as real / 100000000.0 && -0.5 <= units as real - exact * 100000000.0 <= 0.5
  }

  /** The cost listed for an exact one. */
  ghost predicate ListedFor(cost: real, exact: real) {
    exists units :: Nearest(units, cost, exact)
  }

  lemma RoundedIsListed(x: real)
    ensures ListedFor(Round8(x), x)
  {
    var units := Round8IsNearest(x);
    assert Nearest(units, Round8(x), x);
  }

  lemma Spread(x: real, y: real, c: real)
    ensures (x + y) * c == x * c + y * c
  {
  }

  /** The unrounded price of a successful result. */
  function ExactPrice(costIn: real, costOut: real): InferenceResult -> real {
    (r: InferenceResult) => if r.success then Price(r.inputTokens, r.outputTokens, costIn, costOut) else 0.0
  }

  function ListedCost(r: InferenceResult): real {
    r.cost
  }

  /** The cost a result shows: its price rounded, or nothing for a failure. */
  predicate Priced(r: InferenceResult, costIn: real, costOut: real) {
    r.cost == if r.success then Round8(Price(r.inputTokens, r.outputTokens, costIn, costOut)) else 0.0
  }

  lemma Scale(n: int, x: real)
    ensures (n + 1) as real * x == n as real * x + x
  {
  }

  /** Listed costs add up to the unrounded total within half a unit of the eighth place per success. */
  lemma {:induction false} RoundingDrift(m: Results, n: nat, costIn: real, costOut: real)
    requires forall k :: k in m ==> Priced(m[k], costIn, costOut)
    ensures var slack := Tally(m, n, Success) as real * HALF_ULP;
            -slack <= TallyReal(m, n, ListedCost) - TallyReal(m, n, ExactPrice(costIn, costOut)) <= slack
  {
    if n > 0 {
      RoundingDrift(m, n - 1, costIn, costOut);
      if n - 1 in m {
        var r := m[n - 1];
        assert Priced(r, costIn, costOut);
        Round8Close(Price(r.inputTokens, r.outputTokens, costIn, costOut));
        Scale(Tally(m, n - 1, Success), HALF_ULP);
      }
    }
  }
}
