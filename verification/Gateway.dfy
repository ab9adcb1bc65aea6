/**
 Pricing in ModelGateway: what a background request reserves before it is sent,
 and what its reported usage is settled at.  Prices are microdollars a token.
 */
module Gateway {
  import opened Common
  import L = Ledger

  const OVERHEAD := 8192
  const INPUT_LIMIT := 32_000
  const MAX_TOKENS := 4000

  datatype Prices = Prices(input: real, output: real)

  const HAIKU := Prices(0.5, 2.5)
  const SONNET := Prices(2.0, 10.0)

  function PriceOf(model: string): Option<Prices> {
    if model == "claude-haiku-5-5" then Some(HAIKU)
    else if model == "claude-sonnet-5-5" then Some(SONNET)
    else None
  }

  function Ceiling(x: real): int {
    -((-x).Floor)
  }

  datatype Preparation = Prepared(inputBound: int, maximum: int) | Unpriced | TooLong

  /** `bytes` is the UTF-8 length of the serialised request. */
  function Prepare(model: string, bytes: nat): Preparation {
    match PriceOf(model)
    case None => Unpriced
    case Some(prices) =>
      var inputBound := bytes + OVERHEAD;
      if inputBound > INPUT_LIMIT then TooLong
      else Prepared(inputBound, Ceiling(inputBound as real * prices.input * 2.0 + MAX_TOKENS as real * prices.output))
  }

  /** A count the provider left out is None. */
  datatype Usage = Usage(input: Option<int>, output: Option<int>, cacheCreation: Option<int>, cacheRead: Option<int>)

  predicate Counted(n: Option<int>) {
    n.Some? && 0 <= n.value <= L.MAX_SAFE_INTEGER
  }

  predicate Reported(u: Usage) {
    Counted(u.input) && Counted(u.output) && Counted(u.cacheCreation) && Counted(u.cacheRead)
  }

  /** The settled amount, or None when the usage is incomplete and the reservation stays open. */
  function Amount(prices: Prices, u: Usage): Option<int> {
    if !Reported(u) then None
    else
      var input := u.input.value + u.cacheCreation.value * 2 + u.cacheRead.value;
      Some(Ceiling(input as real * prices.input + u.output.value as real * prices.output))
  }

  /** What was used, by kind, at these prices: cache writes cost twice what other input does. */
  function Cost(prices: Prices, u: Usage): real
    requires Reported(u)
  {
    u.input.value as real * prices.input + u.cacheRead.value as real * prices.input
    + 2.0 * (u.cacheCreation.value as real * prices.input) + u.output.value as real * prices.output
  }

  /** It is settled at its cost, rounded up to a whole microdollar. */
  lemma AmountIsCost(prices: Prices, u: Usage)
    ensures Amount(prices, u).Some? <==>
      forall n :: n in {u.input, u.output, u.cacheCreation, u.cacheRead} ==>
        n.Some? && 0 <= n.value <= L.MAX_SAFE_INTEGER
    ensures Amount(prices, u).Some? ==>
      Cost(prices, u) <= Amount(prices, u).value as real < Cost(prices, u) + 1.0
  {
    if Reported(u) {
      var a, b, c := u.input.value as real, u.cacheCreation.value as real, u.cacheRead.value as real;
      assert (u.input.value + u.cacheCreation.value * 2 + u.cacheRead.value) as real == a + b * 2.0 + c;
      assert (a + b * 2.0 + c) * prices.input == a * prices.input + 2.0 * (b * prices.input) + c * prices.input;
    }
  }

  function Used(input: int, output: int, cacheCreation: int, cacheRead: int): Usage {
    Usage(Some(input), Some(output), Some(cacheCreation), Some(cacheRead))
  }

  /** The two priced models, and what a thousand tokens of each kind are settled at. */
  lemma ThousandTokens(model: string)
    ensures PriceOf(model).Some? <==> model in {"claude-haiku-5-5", "claude-sonnet-5-5"}
    ensures var haiku := PriceOf("claude-haiku-5-5");
      && haiku.Some?
      && Amount(haiku.value, Used(1000, 0, 0, 0)) == Some(500) && Amount(haiku.value, Used(0, 1000, 0, 0)) == Some(2500)
      && Amount(haiku.value, Used(0, 0, 1000, 0)) == Some(1000) && Amount(haiku.value, Used(0, 0, 0, 1000)) == Some(500)
    ensures var sonnet := PriceOf("claude-sonnet-5-5");
      && sonnet.Some?
      && Amount(sonnet.value, Used(1000, 0, 0, 0)) == Some(2000)
      && Amount(sonnet.value, Used(0, 1000, 0, 0)) == Some(10_000)
      && Amount(sonnet.value, Used(0, 0, 1000, 0)) == Some(4000)
      && Amount(sonnet.value, Used(0, 0, 0, 1000)) == Some(2000)
  {
    assert "claude-haiku-5-5"[7] != "claude-sonnet-5-5"[7];
  }

  /**
   The bytes with 8,192 of headroom, all of them cache writes, and 4,000 tokens of output, rounded
   up; at most 32,000.
   */
  lemma PreparedIff(model: string, bytes: nat)
    ensures Prepare(model, bytes).Unpriced? <==> PriceOf(model).None?
    ensures Prepare(model, bytes).Prepared? <==> PriceOf(model).Some? && bytes + 8192 <= 32_000
    ensures Prepare(model, bytes).Prepared? ==>
      var p, most := Prepare(model, bytes), Cost(PriceOf(model).value, Used(0, 4000, bytes + 8192, 0));
      p.inputBound == bytes + 8192 && most <= p.maximum as real < most + 1.0
  {
    if PriceOf(model).Some? {
      var bound, input := (bytes + 8192) as real, PriceOf(model).value.input;
      assert bound * input * 2.0 == 2.0 * (bound * input);
    }
  }

  /** The provider kept to the byte bound and to max_tokens. */
  predicate Conforms(u: Usage, inputBound: int) {
    && Reported(u)
    && u.input.value + u.cacheCreation.value + u.cacheRead.value <= inputBound
    && u.output.value <= MAX_TOKENS
  }

  lemma CeilingIsMonotone(x: real, y: real)
    requires x <= y
    ensures Ceiling(x) <= Ceiling(y)
  {
  }

  /** No conforming usage costs more than was reserved. */
  lemma UsageFitsReservation(model: string, bytes: nat, u: Usage)
    requires Prepare(model, bytes).Prepared? && Conforms(u, Prepare(model, bytes).inputBound)
    ensures 0 <= Amount(PriceOf(model).value, u).value <= Prepare(model, bytes).maximum
  {
    var prices := PriceOf(model).value;
    var bound := Prepare(model, bytes).inputBound;
    var input := u.input.value + u.cacheCreation.value * 2 + u.cacheRead.value;
    assert input <= 2 * bound;
    CeilingIsMonotone(input as real * prices.input + u.output.value as real * prices.output,
                      bound as real * prices.input * 2.0 + MAX_TOKENS as real * prices.output);
  }

  /** The reservation is no larger than it must be: some conforming usage costs exactly that much. */
  lemma ReservationIsTight(model: string, bytes: nat)
    requires Prepare(model, bytes).Prepared?
    ensures exists u :: Conforms(u, Prepare(model, bytes).inputBound)
                     && Amount(PriceOf(model).value, u) == Some(Prepare(model, bytes).maximum)
  {
    var bound := Prepare(model, bytes).inputBound;
    var prices := PriceOf(model).value;
    var u := Usage(Some(0), Some(MAX_TOKENS), Some(bound), Some(0));
    assert (bound * 2) as real * prices.input == bound as real * prices.input * 2.0;
    assert Conforms(u, bound) && Amount(prices, u) == Some(Prepare(model, bytes).maximum);
  }

  /** Hence settling a conforming usage never raises the pricing error that stops paid admission. */
  lemma ConformingUsageNeverOverruns(l: L.Tables, day: int -> int, model: string, bytes: nat, u: Usage,
      id: int, now: int)
    requires Prepare(model, bytes).Prepared? && Conforms(u, Prepare(model, bytes).inputBound)
    requires 0 <= id < |l.charges| && l.charges[id].maximum == Prepare(model, bytes).maximum
    ensures L.Settle(l, day, id, Amount(PriceOf(model).value, u).value, now, None).0.pricingError == l.pricingError
  {
    UsageFitsReservation(model, bytes, u);
  }
}
