/**
 * The Redux slice of the crypto pages (src/app/features/crypto/cryptoSlice.jsx):
 * four fields, each with a reducer that writes its payload into the draft
 * state in place. The store is a class whose fields the setters assign;
 * `Reduce` is the same transition on values, about which the algebraic
 * properties are stated.
 */
module CryptoSlice {

  datatype CryptoState = CryptoState(searchTerm: string, conversionAmount: real, fromCurrency: string, toCurrency: string)

  datatype Action =
    | SetSearchTerm(term: string)
    | SetConversionAmount(amount: real)
    | SetFromCurrency(from: string)
    | SetToCurrency(to: string)

  const InitialState: CryptoState := CryptoState("", 1.0, "bitcoin", "ethereum")

  /** The field an action writes, numbered in declaration order. */
  function Target(a: Action): (f: nat)
    ensures f < 4
  {
    match a
    case SetSearchTerm(_) => 0
    case SetConversionAmount(_) => 1
    case SetFromCurrency(_) => 2
    case SetToCurrency(_) => 3
  }

  /** The slice's reducer on values: each action sets its own field to its payload and leaves the three others alone. */
  function Reduce(s: CryptoState, a: Action): (r: CryptoState)
    ensures if a.SetSearchTerm? then r.searchTerm == a.term else r.searchTerm == s.searchTerm
    ensures if a.SetConversionAmount? then r.conversionAmount == a.amount else r.conversionAmount == s.conversionAmount
    ensures if a.SetFromCurrency? then r.fromCurrency == a.from else r.fromCurrency == s.fromCurrency
    ensures if a.SetToCurrency? then r.toCurrency == a.to else r.toCurrency == s.toCurrency
  {
    match a
    case SetSearchTerm(t) => s.(searchTerm := t)
    case SetConversionAmount(x) => s.(conversionAmount := x)
    case SetFromCurrency(c) => s.(fromCurrency := c)
    case SetToCurrency(c) => s.(toCurrency := c)
  }

  /** Dispatching the same action twice is dispatching it once. */
  lemma ReduceIdempotent(s: CryptoState, a: Action)
    ensures Reduce(Reduce(s, a), a) == Reduce(s, a)
  {
  }

  /** Actions on different fields commute; on the same field the later one wins. */
  lemma ReduceCommutes(s: CryptoState, a: Action, b: Action)
    ensures Target(a) != Target(b) ==> Reduce(Reduce(s, a), b) == Reduce(Reduce(s, b), a)
    ensures Target(a) == Target(b) ==> Reduce(Reduce(s, a), b) == Reduce(s, b)
  {
  }

  class CryptoStore {
    var searchTerm: string
    var conversionAmount: real
    var fromCurrency: string
    var toCurrency: string

    function Value(): CryptoState
      reads this
    {
      CryptoState(searchTerm, conversionAmount, fromCurrency, toCurrency)
    }

    constructor ()
      ensures Value() == InitialState
    {
      searchTerm := "";
      conversionAmount := 1.0;
      fromCurrency := "bitcoin";
      toCurrency := "ethereum";
    }

    method SetSearchTerm(term: string)
      modifies this
      ensures Value() == Reduce(old(Value()), Action.SetSearchTerm(term))
    {
      searchTerm := term;
    }

    method SetConversionAmount(amount: real)
      modifies this
      ensures Value() == Reduce(old(Value()), Action.SetConversionAmount(amount))
    {
      conversionAmount := amount;
    }

    method SetFromCurrency(from: string)
      modifies this
      ensures Value() == Reduce(old(Value()), Action.SetFromCurrency(from))
    {
      fromCurrency := from;
    }

    method SetToCurrency(to: string)
      modifies this
      ensures Value() == Reduce(old(Value()), Action.SetToCurrency(to))
    {
      toCurrency := to;
    }

    /** `dispatch(action)`: the reducer for the action's type. */
    method Dispatch(a: Action)
      modifies this
      ensures Value() == Reduce(old(Value()), a)
    {
      match a
      case SetSearchTerm(t) => SetSearchTerm(t);
      case SetConversionAmount(x) => SetConversionAmount(x);
      case SetFromCurrency(c) => SetFromCurrency(c);
      case SetToCurrency(c) => SetToCurrency(c);
    }
  }
}
