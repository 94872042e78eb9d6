/** The string-backed `CountryCode` enum: its cases, `from`, and the comma-joined value lists. */
module CountryCodes {
  import opened Wrappers
  import opened Errors
  import Text
  import Php

  datatype CountryCode = Sk | Cz
  {
    /** The backing value; every value reads back as its own case. */
    function Value(): (s: string)
      ensures |s| == 2
      ensures From(s) == Success(this)
    {
      match this
      case Sk => "SK"
      case Cz => "CZ"
    }
  }

  /** `CountryCode::cases()`, in declaration order. */
  const Cases: seq<CountryCode> := [Sk, Cz]

  /** `CountryCode::from($value)`: the case backed by the value, or a ValueError. */
  function From(s: string): (r: Result<CountryCode, Cause>)
    ensures r.Success? <==> s == "SK" || s == "CZ"
    ensures r.Failure? ==> r.error == ValueError
  {
    if s == "SK" then Success(Sk)
    else if s == "CZ" then Success(Cz)
    else Failure(ValueError)
  }

  /** `from` succeeds exactly on the backing values, and inverts `Value`. */
  lemma FromIsPartialInverse(s: string)
    ensures From(s).Success? <==> exists c: CountryCode :: c.Value() == s
    ensures From(s).Success? ==> From(s).value.Value() == s
  {
    if s == "SK" { assert Sk.Value() == s; }
    if s == "CZ" { assert Cz.Value() == s; }
  }

  /** There are exactly two cases, and their values are distinct. */
  lemma CasesAreDistinct()
    ensures |Cases| == 2
    ensures forall c: CountryCode :: c in Cases
    ensures Cases[0].Value() != Cases[1].Value()
  {
    forall c: CountryCode
      ensures c in Cases
    {
      match c
      case Sk => assert Cases[0] == Sk;
      case Cz => assert Cases[1] == Cz;
    }
  }

  /** `CountryCode::from` applied to an array key: integer keys are rejected by the string parameter. */
  function FromKey(k: Php.Key): (r: Result<CountryCode, Cause>)
    ensures r.Success? <==> k.StrKey? && From(k.s).Success?
    ensures r.Success? ==> k == Php.StrKey(r.value.Value())
    ensures k.IntKey? ==> r == Failure(TypeError)
  {
    match k
    case StrKey(s) => From(s)
    case IntKey(_) => Failure(TypeError)
  }

  function Values(codes: seq<CountryCode>): (r: seq<string>)
    ensures |r| == |codes| && forall i :: 0 <= i < |codes| ==> r[i] == codes[i].Value()
  {
    seq(|codes|, i requires 0 <= i < |codes| => codes[i].Value())
  }

  /** `getValuesOfCollection`: the codes' values in the given order, separated by commas. */
  function ValuesOfCollection(codes: seq<CountryCode>): (r: string)
    ensures codes == [] ==> r == ""
    ensures |codes| == 1 ==> r == codes[0].Value()
    ensures codes != [] ==> |r| == 3 * |codes| - 1
  {
    Text.JoinLength(",", Values(codes), 2);
    Text.Join(",", Values(codes))
  }

  /** `getAllValues`: every case's value, in declaration order. */
  function AllValues(): (r: string)
    ensures r == "SK,CZ"
  {
    ValuesOfCollection(Cases)
  }

  /** One more code extends the list by a comma and its value: order and duplicates are kept. */
  lemma ValuesOfCollectionAppend(codes: seq<CountryCode>, c: CountryCode)
    ensures ValuesOfCollection(codes + [c]) ==
              if codes == [] then c.Value() else ValuesOfCollection(codes) + "," + c.Value()
  {
    assert Values(codes + [c]) == Values(codes) + [c.Value()];
    Text.JoinSnoc(",", Values(codes), c.Value());
  }

  /** Different code lists give different strings, so the joined list identifies the codes requested. */
  lemma ValuesOfCollectionInjective(a: seq<CountryCode>, b: seq<CountryCode>)
    requires ValuesOfCollection(a) == ValuesOfCollection(b)
    ensures a == b
  {
    Text.JoinInjective(",", Values(a), Values(b), 2);
    assert |a| == |b|;
    forall i | 0 <= i < |a|
      ensures a[i] == b[i]
    {
      assert From(a[i].Value()) == From(b[i].Value());
    }
  }
}
