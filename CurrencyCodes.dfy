/** The string-backed `CurrencyCode` enum: its cases, `from`, and the comma-joined value lists. */
module CurrencyCodes {
  import opened Wrappers
  import opened Errors
  import Text
  import Php

  datatype CurrencyCode = Eur | Usd | Czk
  {
    /** The backing value; every value reads back as its own case. */
    function Value(): (s: string)
      ensures |s| == 3
      ensures From(s) == Success(this)
    {
      match this
      case Eur => "EUR"
      case Usd => "USD"
      case Czk => "CZK"
    }
  }

  /** `CurrencyCode::cases()`, in declaration order. */
  const Cases: seq<CurrencyCode> := [Eur, Usd, Czk]

  /** `CurrencyCode::from($value)`: the case backed by the value, or a ValueError. */
  function From(s: string): (r: Result<CurrencyCode, Cause>)
    ensures r.Success? <==> s == "EUR" || s == "USD" || s == "CZK"
    ensures r.Failure? ==> r.error == ValueError
  {
    if s == "EUR" then Success(Eur)
    else if s == "USD" then Success(Usd)
    else if s == "CZK" then Success(Czk)
    else Failure(ValueError)
  }

  /** `from` succeeds exactly on the backing values, and inverts `Value`. */
  lemma FromIsPartialInverse(s: string)
    ensures From(s).Success? <==> exists c: CurrencyCode :: c.Value() == s
    ensures From(s).Success? ==> From(s).value.Value() == s
  {
    if s == "EUR" { assert Eur.Value() == s; }
    if s == "USD" { assert Usd.Value() == s; }
    if s == "CZK" { assert Czk.Value() == s; }
  }

  /** There are exactly three cases, and their values are pairwise distinct. */
  lemma CasesAreDistinct()
    ensures |Cases| == 3
    ensures forall c: CurrencyCode :: c in Cases
    ensures forall i, j :: 0 <= i < j < |Cases| ==> Cases[i].Value() != Cases[j].Value()
  {
    forall c: CurrencyCode
      ensures c in Cases
    {
      match c
      case Eur => assert Cases[0] == Eur;
      case Usd => assert Cases[1] == Usd;
      case Czk => assert Cases[2] == Czk;
    }
  }

  /** `CurrencyCode::from` applied to an array key: integer keys are rejected by the string parameter. */
  function FromKey(k: Php.Key): (r: Result<CurrencyCode, Cause>)
    ensures r.Success? <==> k.StrKey? && From(k.s).Success?
    ensures r.Success? ==> k == Php.StrKey(r.value.Value())
    ensures k.IntKey? ==> r == Failure(TypeError)
  {
    match k
    case StrKey(s) => From(s)
    case IntKey(_) => Failure(TypeError)
  }

  /** `CurrencyCode::from` applied to a payload value: anything but a string is a TypeError. */
  function FromJson(j: Php.Json): (r: Result<CurrencyCode, Cause>)
    ensures r.Success? <==> j.JString? && From(j.s).Success?
    ensures r.Success? ==> j == Php.JString(r.value.Value())
    ensures !j.JString? ==> r == Failure(TypeError)
  {
    match j
    case JString(s) => From(s)
    case _ => Failure(TypeError)
  }

  function Values(codes: seq<CurrencyCode>): (r: seq<string>)
    ensures |r| == |codes| && forall i :: 0 <= i < |codes| ==> r[i] == codes[i].Value()
  {
    seq(|codes|, i requires 0 <= i < |codes| => codes[i].Value())
  }

  /** `getValuesOfCollection`: the codes' values in the given order, separated by commas. */
  function ValuesOfCollection(codes: seq<CurrencyCode>): (r: string)
    ensures codes == [] ==> r == ""
    ensures |codes| == 1 ==> r == codes[0].Value()
    ensures codes != [] ==> |r| == 4 * |codes| - 1
  {
    Text.JoinLength(",", Values(codes), 3);
    Text.Join(",", Values(codes))
  }

  /** `getAllValues`: every case's value, in declaration order. */
  function AllValues(): (r: string)
    ensures r == "EUR,USD,CZK"
  {
    ValuesOfCollection(Cases)
  }

  /** One more code extends the list by a comma and its value: order and duplicates are kept. */
  lemma ValuesOfCollectionAppend(codes: seq<CurrencyCode>, c: CurrencyCode)
    ensures ValuesOfCollection(codes + [c]) ==
              if codes == [] then c.Value() else ValuesOfCollection(codes) + "," + c.Value()
  {
    assert Values(codes + [c]) == Values(codes) + [c.Value()];
    Text.JoinSnoc(",", Values(codes), c.Value());
  }

  /** Different code lists give different strings, so the joined list identifies the codes requested. */
  lemma ValuesOfCollectionInjective(a: seq<CurrencyCode>, b: seq<CurrencyCode>)
    requires ValuesOfCollection(a) == ValuesOfCollection(b)
    ensures a == b
  {
    Text.JoinInjective(",", Values(a), Values(b), 3);
    assert |a| == |b|;
    forall i | 0 <= i < |a|
      ensures a[i] == b[i]
    {
      assert From(a[i].Value()) == From(b[i].Value());
    }
  }
}
