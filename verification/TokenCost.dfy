/**
 * What an LLM call costs. Rates are in thousandths of a dollar per million tokens, so a cost is in
 * billionths of a dollar and every sum here is exact.
 */
module TokenCost {
  import opened Arithmetic
  import opened Options

  datatype ModelPrice = ModelPrice(input: nat, cachedInput: Option<nat>, output: nat)

  /** One line of the price table: a key ending in '*' stands for every name that starts like it. */
  datatype Entry = Entry(key: string, price: ModelPrice)

  const TERRA := ModelPrice(2000, Some(200), 12000)
  const GPT_4O := ModelPrice(2500, Some(1250), 10000)

  const LLM_PRICES: seq<Entry> := [
    Entry("gpt-5.6-terra", TERRA),
    Entry("gpt-5.6-luna", ModelPrice(200, None, 1200)),
    Entry("gpt-4o", GPT_4O),
    Entry("gpt-4o-mini", ModelPrice(150, Some(75), 600)),
    Entry("text-embedding-3-small", ModelPrice(20, None, 0)),
    Entry("jev*", ModelPrice(42, None, 0))
  ]

  // ── Finding a model's price ─────────────────────────────────────────────────────────────────

  predicate IsDigit(c: char) { '0' <= c <= '9' }

  /** "-dddd-dd-dd" */
  predicate IsDateSuffix(s: string) {
    && |s| == 11 && s[0] == '-' && s[5] == '-' && s[8] == '-'
    && forall i :: 0 <= i < 11 && i != 0 && i != 5 && i != 8 ==> IsDigit(s[i])
  }

  predicate AllDigits(s: string) { forall i :: 0 <= i < |s| ==> IsDigit(s[i]) }

  /** A date suffix is a dash, four digits, a dash, two digits, a dash and two digits. */
  lemma DateSuffixExactly(year: string, month: string, day: string)
    requires |year| == 4 && |month| == 2 && |day| == 2
    ensures IsDateSuffix("-" + year + "-" + month + "-" + day)
      <==> AllDigits(year) && AllDigits(month) && AllDigits(day)
  {
    var s := "-" + year + "-" + month + "-" + day;
    assert s[1] == year[0] && s[2] == year[1] && s[3] == year[2] && s[4] == year[3];
    assert s[6] == month[0] && s[7] == month[1] && s[9] == day[0] && s[10] == day[1];
  }

  function WithoutDate(name: string): string {
    if |name| >= 11 && IsDateSuffix(name[|name| - 11..]) then name[..|name| - 11] else name
  }

  /** The table's row for exactly this key. */
  function Lookup(prices: seq<Entry>, key: string): (r: Option<ModelPrice>)
    ensures r.None? ==> forall e :: e in prices ==> e.key != key
    ensures r.Some? ==> exists e :: e in prices && e.key == key && r == Some(e.price)
  {
    if prices == [] then None
    else if prices[0].key == key then Some(prices[0].price)
    else Lookup(prices[1..], key)
  }

  predicate IsWildcardFor(key: string, name: string) {
    key != "" && key[|key| - 1] == '*' && key[..|key| - 1] <= name
  }

  /** The first row whose key is a wildcard for `name`. */
  function LookupWildcard(prices: seq<Entry>, name: string): (r: Option<ModelPrice>)
    ensures r.None? ==> forall e :: e in prices ==> !IsWildcardFor(e.key, name)
    ensures r.Some? ==> exists e :: e in prices && IsWildcardFor(e.key, name) && r == Some(e.price)
  {
    if prices == [] then None
    else if IsWildcardFor(prices[0].key, name) then Some(prices[0].price)
    else LookupWildcard(prices[1..], name)
  }

  /** `name` is the reported model name, trimmed and in lower case. */
  function FindPrice(name: string, prices: seq<Entry>): Option<ModelPrice> {
    var direct := Lookup(prices, name);
    var dated := if direct.Some? then direct else Lookup(prices, WithoutDate(name));
    if dated.Some? then dated else LookupWildcard(prices, name)
  }

  /** A snapshot costs what its model costs, unless the table lists the snapshot itself. */
  lemma SnapshotCostsTheSame(model: string, date: string, prices: seq<Entry>)
    requires IsDateSuffix(date) && Lookup(prices, model).Some?
    requires forall e :: e in prices ==> e.key != model + date
    ensures FindPrice(model + date, prices) == FindPrice(model, prices)
  {
    var name := model + date;
    assert name[|name| - 11..] == date && name[..|name| - 11] == model;
    assert Lookup(prices, name).None?;
  }

  /** A name has no price exactly when no row is for it, for its undated form, or a wildcard for it: an
    * unknown model is never priced, and a known one always is. */
  lemma UnpricedExactly(name: string, prices: seq<Entry>)
    ensures FindPrice(name, prices).None? <==>
      forall e :: e in prices ==> e.key != name && e.key != WithoutDate(name) && !IsWildcardFor(e.key, name)
  {
  }

  /** No two rows are for the same key. */
  predicate KeysApart(prices: seq<Entry>) {
    forall i, k :: 0 <= i < k < |prices| ==> prices[i].key != prices[k].key
  }

  /** A model listed is priced by its own row, whatever other row would do for it; one that is not, but is a dated
    * snapshot of one that is, by that one's row. */
  lemma OwnRowFirst(prices: seq<Entry>, i: nat, name: string)
    requires KeysApart(prices) && i < |prices|
    requires name == prices[i].key
      || (WithoutDate(name) == prices[i].key && forall e :: e in prices ==> e.key != name)
    ensures FindPrice(name, prices) == Some(prices[i].price)
  {
    var key := prices[i].key;
    var r := Lookup(prices, key);
    assert prices[i] in prices;
    var e :| e in prices && e.key == key && r == Some(e.price);
    var k :| 0 <= k < |prices| && prices[k] == e;
    assert k == i;
    if name != key {
      assert Lookup(prices, name).None?;
    }
  }

  /** A name with no row of its own, nor for its undated form, is priced by the first wildcard it starts like. */
  lemma {:induction false} FirstWildcard(prices: seq<Entry>, i: nat, name: string)
    requires i < |prices| && IsWildcardFor(prices[i].key, name)
    requires forall k :: 0 <= k < i ==> !IsWildcardFor(prices[k].key, name)
    ensures LookupWildcard(prices, name) == Some(prices[i].price)
    ensures (forall e :: e in prices ==> e.key != name && e.key != WithoutDate(name)) ==>
      FindPrice(name, prices) == Some(prices[i].price)
  {
    if i > 0 {
      assert !IsWildcardFor(prices[0].key, name);
      assert forall k :: 0 <= k < i - 1 ==> prices[1..][k] == prices[k + 1];
      FirstWildcard(prices[1..], i - 1, name);
    }
  }

  /** Any model whose name starts with jev is priced by the family's row. */
  lemma JevFamily(rest: string)
    ensures FindPrice("jev" + rest, LLM_PRICES) == Some(ModelPrice(42, None, 0))
  {
    var name := "jev" + rest;
    assert name[0] == 'j' && name[..3] == "jev";
    var own := WithoutDate(name);
    assert own != "" && own[0] == 'j';
    forall e | e in LLM_PRICES[..5]
      ensures e.key[0] != 'j' && !IsWildcardFor(e.key, name)
    {
    }
    if Lookup(LLM_PRICES, name).Some? || Lookup(LLM_PRICES, own).Some? {
      assert LLM_PRICES == LLM_PRICES[..5] + [LLM_PRICES[5]];
    } else {
      FirstWildcard(LLM_PRICES, 5, name);
    }
  }

  // ── What a call costs ───────────────────────────────────────────────────────────────────────

  datatype TokenCounts = TokenCounts(input: nat, output: nat, cached: Option<int>)

  function Clamp(x: int, hi: nat): (r: nat)
    ensures r <= hi
  {
    if x < 0 then 0 else if x > hi then hi else x
  }

  function Cached(t: TokenCounts): (c: nat)
    ensures c <= t.input
  {
    Clamp(if t.cached.Some? then t.cached.value else 0, t.input)
  }

  function CachedRate(p: ModelPrice): nat {
    if p.cachedInput.Some? then p.cachedInput.value else p.input
  }

  function Cost(t: TokenCounts, p: ModelPrice): nat {
    (t.input - Cached(t)) * p.input + Cached(t) * CachedRate(p) + t.output * p.output
  }

  /** Nothing costs nothing, and every further token costs its own rate: one of input the input rate, one of input
    * read from the cache the cached rate, one of output the output rate. */
  lemma EachTokenItsRate(input: nat, cached: nat, output: nat, p: ModelPrice)
    requires cached <= input
    ensures Cost(TokenCounts(0, 0, None), p) == 0
    ensures var cost := Cost(TokenCounts(input, output, Some(cached)), p);
      && Cost(TokenCounts(input + 1, output, Some(cached)), p) == cost + p.input
      && Cost(TokenCounts(input + 1, output, Some(cached + 1)), p)
         == cost + (if p.cachedInput.Some? then p.cachedInput.value else p.input)
      && Cost(TokenCounts(input, output + 1, Some(cached)), p) == cost + p.output
  {
    OneMore(input - cached, p.input);
    OneMore(cached, CachedRate(p));
    OneMore(output, p.output);
  }

  lemma OneMore(n: int, rate: int)
    ensures (n + 1) * rate == n * rate + rate
  {
  }

  /** A cached count that is missing or negative counts as none, and one above the input as all of it. */
  lemma CachedAsFarAsItGoes(input: nat, output: nat, cached: int, p: ModelPrice)
    ensures var t := TokenCounts(input, output, Some(cached));
      && (cached <= 0 ==> Cost(t, p) == Cost(t.(cached := None), p) == Cost(t.(cached := Some(0)), p))
      && (cached >= input ==> Cost(t, p) == Cost(t.(cached := Some(input)), p))
  {
  }

  function EstimateCost(name: Option<string>, t: TokenCounts, prices: seq<Entry>): Option<nat> {
    if name.None? || name.value == "" then None
    else
      var price := FindPrice(name.value, prices);
      if price.None? then None else Some(Cost(t, price.value))
  }

  /** A cost comes to nothing only for a call of a listed model that was billed for nothing: an unknown model
    * has no cost at all, never one of 0. */
  lemma UnknownIsNeverFree(name: string, t: TokenCounts)
    ensures EstimateCost(Some(name), t, LLM_PRICES) == Some(0) <==>
      && name != "" && FindPrice(name, LLM_PRICES).Some?
      && t.input == 0 && (t.output == 0 || FindPrice(name, LLM_PRICES).value.output == 0)
    ensures FindPrice(name, LLM_PRICES).None? ==> EstimateCost(Some(name), t, LLM_PRICES).None?
  {
    var price := FindPrice(name, LLM_PRICES);
    if price.Some? {
      FoundInTable(name, LLM_PRICES);
      var e :| e in LLM_PRICES && price == Some(e.price);
      AllRowsBillInput(e);
      InputCosts(t, e.price);
    }
  }

  lemma FoundInTable(name: string, prices: seq<Entry>)
    requires FindPrice(name, prices).Some?
    ensures exists e :: e in prices && FindPrice(name, prices) == Some(e.price)
  {
  }

  lemma AllRowsBillInput(e: Entry)
    requires e in LLM_PRICES
    ensures e.price.input > 0 && CachedRate(e.price) > 0
  {
  }

  lemma InputCosts(t: TokenCounts, p: ModelPrice)
    requires p.input > 0 && CachedRate(p) > 0
    ensures Cost(t, p) == 0 <==> t.input == 0 && (t.output == 0 || p.output == 0)
  {
    var uncached, cached := t.input - Cached(t), Cached(t);
    assert uncached * p.input == 0 <==> uncached == 0;
    assert cached * CachedRate(p) == 0 <==> cached == 0;
    assert t.output * p.output == 0 <==> t.output == 0 || p.output == 0;
  }

  /** Caching `a` rather than `b` of the same input. */
  lemma CostOfCaching(input: nat, a: nat, b: nat, p: ModelPrice)
    requires a <= b <= input
    ensures (input - a) * p.input + a * CachedRate(p)
         == (input - b) * p.input + b * CachedRate(p) + (b - a) * (p.input - CachedRate(p))
  {
  }

  ghost predicate CachingNeverCostsMore(p: ModelPrice) {
    forall t: TokenCounts, a: nat, b: nat :: a <= b ==> Cost(t.(cached := Some(b)), p) <= Cost(t.(cached := Some(a)), p)
  }

  /** More cached tokens never cost more, exactly when the cached rate is no dearer than the input rate. */
  lemma CachingSavesIffCheaper(p: ModelPrice)
    ensures CachingNeverCostsMore(p) <==> CachedRate(p) <= p.input
  {
    if CachedRate(p) <= p.input {
      forall t: TokenCounts, a: nat, b: nat | a <= b
        ensures Cost(t.(cached := Some(b)), p) <= Cost(t.(cached := Some(a)), p)
      {
        CostOfCaching(t.input, Clamp(a, t.input), Clamp(b, t.input), p);
        NotNegative(Clamp(b, t.input) - Clamp(a, t.input), p.input - CachedRate(p));
      }
    } else {
      var t := TokenCounts(1, 0, None);
      assert Cost(t.(cached := Some(1)), p) > Cost(t.(cached := Some(0)), p);
    }
  }

  lemma NotNegative(a: nat, b: nat)
    ensures a * b >= 0
  {
  }

  // ── Costing calls together ──────────────────────────────────────────────────────────────────

  /** The summed counts the unpriced rows are costed by; a missing cached count adds nothing. */
  function Summed(calls: seq<TokenCounts>): TokenCounts {
    if calls == [] then TokenCounts(0, 0, Some(0))
    else
      var rest, last := Summed(calls[..|calls| - 1]), calls[|calls| - 1];
      TokenCounts(rest.input + last.input, rest.output + last.output, Some(CachedOf(rest) + CachedOf(last)))
  }

  function CachedOf(t: TokenCounts): int { if t.cached.Some? then t.cached.value else 0 }

  function Costs(calls: seq<TokenCounts>, p: ModelPrice): nat {
    if calls == [] then 0 else Costs(calls[..|calls| - 1], p) + Cost(calls[|calls| - 1], p)
  }

  function CachedInAll(calls: seq<TokenCounts>): nat {
    if calls == [] then 0 else CachedInAll(calls[..|calls| - 1]) + Cached(calls[|calls| - 1])
  }

  lemma {:induction false} CostsTogether(calls: seq<TokenCounts>, p: ModelPrice)
    ensures CachedInAll(calls) <= Summed(calls).input
    ensures Costs(calls, p) == (Summed(calls).input - CachedInAll(calls)) * p.input
                             + CachedInAll(calls) * CachedRate(p) + Summed(calls).output * p.output
  {
    if calls != [] {
      var rest, last := calls[..|calls| - 1], calls[|calls| - 1];
      CostsTogether(rest, p);
      var s, c := Summed(rest), CachedInAll(rest);
      Distributes(s.input - c, last.input - Cached(last), p.input);
      Distributes(c, Cached(last), CachedRate(p));
      Distributes(s.output, last.output, p.output);
    }
  }

  /** Counts as providers report them: the cached tokens are not negative. */
  ghost predicate Reported(calls: seq<TokenCounts>) {
    forall t :: t in calls ==> CachedOf(t) >= 0
  }

  lemma {:induction false} CachedTogether(calls: seq<TokenCounts>)
    requires Reported(calls)
    ensures 0 <= CachedOf(Summed(calls)) && CachedInAll(calls) <= Cached(Summed(calls))
    ensures (forall t :: t in calls ==> CachedOf(t) <= t.input) ==> CachedInAll(calls) == CachedOf(Summed(calls))
  {
    if calls != [] {
      CachedTogether(calls[..|calls| - 1]);
    }
  }

  /** Costing calls one by one and costing their summed counts differ by what the summed counts cache more,
    * at the difference of the rates: so the sum never costs more exactly when it caches no less at a rate no
    * dearer, or no more at one no cheaper. */
  lemma OneByOneCostsNoLessExactly(calls: seq<TokenCounts>, p: ModelPrice)
    ensures Costs(calls, p) - Cost(Summed(calls), p)
         == (Cached(Summed(calls)) - CachedInAll(calls)) * (p.input - CachedRate(p))
    ensures Cost(Summed(calls), p) <= Costs(calls, p) <==>
      || (CachedInAll(calls) <= Cached(Summed(calls)) && CachedRate(p) <= p.input)
      || (CachedInAll(calls) >= Cached(Summed(calls)) && CachedRate(p) >= p.input)
  {
    CostsTogether(calls, p);
    var more: int, saved: int := Cached(Summed(calls)) as int - CachedInAll(calls), p.input as int - CachedRate(p);
    Rearranged(Summed(calls).input, CachedInAll(calls), Cached(Summed(calls)), p.input, CachedRate(p));
    SignOfProduct(more, saved);
  }

  lemma Rearranged(total: int, one: int, all: int, input: int, rate: int)
    ensures (total - one) * input + one * rate - ((total - all) * input + all * rate) == (all - one) * (input - rate)
  {
  }

  lemma SignOfProduct(a: int, b: int)
    ensures a * b >= 0 <==> (a >= 0 && b >= 0) || (a <= 0 && b <= 0)
  {
    if a > 0 && b < 0 {
      Positive(a, 0 - b);
    } else if a < 0 && b > 0 {
      Positive(0 - a, b);
    }
  }

  lemma Positive(a: int, b: int)
    requires a > 0 && b > 0
    ensures a * b > 0
  {
  }

  /** With counts as providers report them and a cached rate no dearer, one by one never comes to less; and it
    * comes to the same when no call reports more cached tokens than input. */
  lemma OneByOneCostsNoLess(calls: seq<TokenCounts>, p: ModelPrice)
    requires Reported(calls) && CachedRate(p) <= p.input
    ensures Cost(Summed(calls), p) <= Costs(calls, p)
    ensures (forall t :: t in calls ==> CachedOf(t) <= t.input) ==> Cost(Summed(calls), p) == Costs(calls, p)
  {
    CostsTogether(calls, p);
    CachedTogether(calls);
    CostOfCaching(Summed(calls).input, CachedInAll(calls), Cached(Summed(calls)), p);
    NotNegative(Cached(Summed(calls)) - CachedInAll(calls), p.input - CachedRate(p));
  }

  // ── The rate for calls with no known price ──────────────────────────────────────────────────

  /** What the comment claims of the rate for unpriced calls: it never undercounts. */
  predicate CoveredByTerra(t: TokenCounts, p: ModelPrice) { Cost(t, p) <= Cost(t, TERRA) }

  /** It holds of every row of the table but gpt-4o, and there exactly when output makes up for the dearer
    * input (in the source's units, 2 output >= 0.5 uncached + 1.05 cached). */
  lemma WhenTerraCovers(t: TokenCounts, e: Entry)
    requires e in LLM_PRICES
    ensures CoveredByTerra(t, e.price) <==>
      e.key != "gpt-4o" || 2000 * t.output >= 500 * (t.input - Cached(t)) + 1050 * Cached(t)
  {
  }

  /** So the blanket claim fails: a call that only reads. */
  lemma TerraUndercountsAReader()
    ensures !CoveredByTerra(TokenCounts(1, 0, None), GPT_4O)
  {
  }

  /** The true cost of unpriced calls, each of some model of the table. */
  function TrueCost(calls: seq<TokenCounts>, models: seq<Entry>): nat
    requires |calls| == |models|
  {
    if calls == [] then 0
    else TrueCost(calls[..|calls| - 1], models[..|calls| - 1]) + Cost(calls[|calls| - 1], models[|calls| - 1].price)
  }

  lemma {:induction false} TerraCoversEach(calls: seq<TokenCounts>, models: seq<Entry>)
    requires |calls| == |models|
    requires forall i :: 0 <= i < |calls| ==> CoveredByTerra(calls[i], models[i].price)
    ensures TrueCost(calls, models) <= Costs(calls, TERRA)
  {
    if calls != [] {
      var n := |calls| - 1;
      assert CoveredByTerra(calls[n], models[n].price);
      TerraCoversEach(calls[..n], models[..n]);
    }
  }

  /** The budget is charged once for the summed counts of the unpriced calls. That covers what they cost
    * when each is covered by the rate and none reports more cached tokens than input. */
  lemma BudgetCoversUnpriced(calls: seq<TokenCounts>, models: seq<Entry>)
    requires |calls| == |models| && forall e :: e in models ==> e in LLM_PRICES
    requires forall t :: t in calls ==> 0 <= CachedOf(t) <= t.input
    requires forall i :: 0 <= i < |calls| && models[i].key == "gpt-4o" ==>
      2000 * calls[i].output >= 500 * (calls[i].input - Cached(calls[i])) + 1050 * Cached(calls[i])
    ensures TrueCost(calls, models) <= Cost(Summed(calls), TERRA)
  {
    forall i | 0 <= i < |calls|
      ensures CoveredByTerra(calls[i], models[i].price)
    {
      assert models[i] in models;
      WhenTerraCovers(calls[i], models[i]);
    }
    TerraCoversEach(calls, models);
    OneByOneCostsNoLess(calls, TERRA);
  }
}
