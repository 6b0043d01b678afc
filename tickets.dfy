/**
 * The `tickets` table as the analytics routes read it. The routes tolerate
 * two representations of the tier: the chat route stores numbers (1, 3) and
 * other writers the labels `TIER_1` / `TIER_2`.
 */
module Tickets {
  import Text

  datatype TierValue = Num(n: int) | Label(s: string)

  /**
   * The property name `acc[t.tier]` uses: JavaScript turns a number into its
   * decimal text, so `1` and `"1"` share a key while `1` and `"TIER_1"` do not.
   */
  function TierKey(t: TierValue): (k: string)
    ensures t.Num? ==> k != [] && (k[0] == '-' <==> t.n < 0)
    ensures t.Num? && t.n >= 0 ==> forall i :: 0 <= i < |k| ==> Text.IsDigit(k[i])
    ensures t.Label? ==> k == t.s
  {
    match t
    case Num(n) => Text.IntToStringSign(n); Text.IntToString(n)
    case Label(s) => s
  }

  /** Distinct numeric tiers get distinct keys. */
  lemma NumericKeysDistinct(a: int, b: int)
    requires a != b
    ensures TierKey(Num(a)) != TierKey(Num(b))
  {
    if TierKey(Num(a)) == TierKey(Num(b)) {
      Text.IntToStringInjective(a, b);
    }
  }

  /** A number and the label spelling its digits fall under one key. */
  lemma NumberAndDigitLabelShareKey(n: nat)
    ensures TierKey(Num(n)) == TierKey(Label(Text.NatToString(n)))
  {
  }

  /** The query's outcome: the rows, or the error the client reported. */
  datatype Query<T> = Rows(data: seq<T>) | QueryError(message: string)

  /** A route's answer: a JSON body, or status 500 with `{error: message}`. */
  datatype Response<T> = Ok(body: T) | ServerError(message: string)
}
