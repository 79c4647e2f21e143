/** The resize strategies and their wire tokens (`io.kraken.client.model.Strategy`). */
module Strategy {
  import opened Wrappers
  import EnumLookup

  datatype Strategy = Exact | Portrait | Landscape | Auto | Fit | Crop | Square | Fill

  /** `Strategy.values()`, in declaration order. */
  const Values: seq<Strategy> := [Exact, Portrait, Landscape, Auto, Fit, Crop, Square, Fill]

  /** `ordinal()`: the position of a constant in `Values`. */
  function Ordinal(s: Strategy): (i: nat)
    ensures i < |Values| && Values[i] == s
  {
    match s
    case Exact => 0
    case Portrait => 1
    case Landscape => 2
    case Auto => 3
    case Fit => 4
    case Crop => 5
    case Square => 6
    case Fill => 7
  }

  /** The tokens the service accepts. */
  const Tokens: set<string> := {"exact", "portrait", "landscape", "auto", "fit", "crop", "square", "fill"}

  /** `getValue`: the token each constant was declared with. */
  function GetValue(s: Strategy): string {
    match s
    case Exact => "exact"
    case Portrait => "portrait"
    case Landscape => "landscape"
    case Auto => "auto"
    case Fit => "fit"
    case Crop => "crop"
    case Square => "square"
    case Fill => "fill"
  }

  /** `toString` returns the token too; it is what the mapper writes for an enum. */
  function ToString(s: Strategy): string {
    GetValue(s)
  }

  /** The contents of `REVERSE_LOOKUP` once the static initialiser has run. */
  function ReverseLookup(): map<string, Strategy> {
    EnumLookup.Table(Values, GetValue)
  }

  /** The static initialiser. */
  method InitReverseLookup() returns (lookup: map<string, Strategy>)
    ensures lookup == ReverseLookup()
    ensures forall s :: GetValue(s) in lookup && lookup[GetValue(s)] == s
  {
    lookup := EnumLookup.Build(Values, GetValue);
    forall s ensures GetValue(s) in lookup && lookup[GetValue(s)] == s {
      FromStringRoundTrip(s);
    }
  }

  /** `fromString`: a map lookup, so an unknown token gives null rather than an exception. */
  function FromString(value: string): Option<Strategy> {
    var lookup := ReverseLookup();
    if value in lookup then Some(lookup[value]) else None
  }

  /** There are eight constants, each listed once, with pairwise distinct tokens. */
  lemma ValuesAreTheConstants()
    ensures |Values| == 8
    ensures forall s :: s in Values
    ensures EnumLookup.DistinctTokens(Values, GetValue)
    ensures forall s :: GetValue(s) in Tokens
  {
    forall s ensures s in Values {
      assert Values[Ordinal(s)] == s;
    }
  }

  /** `getValue` is injective. */
  lemma GetValueInjective(a: Strategy, b: Strategy)
    ensures GetValue(a) == GetValue(b) ==> a == b
  {
  }

  /** Reading back a written token gives the constant: `fromString(s.getValue()) == s`. */
  lemma {:induction false} FromStringRoundTrip(s: Strategy)
    ensures FromString(ToString(s)) == Some(s)
  {
    ValuesAreTheConstants();
    EnumLookup.TableFinds(Values, GetValue, Ordinal(s));
  }

  /** `fromString` finds a constant exactly for the eight tokens. */
  lemma {:induction false} FromStringKnowsOnlyTokens(value: string)
    ensures FromString(value).Some? <==> value in Tokens
  {
    EnumLookup.TableKeys(Values, GetValue, value);
    if value in Tokens {
      var s :| GetValue(s) == value;
      assert GetValue(Values[Ordinal(s)]) == value;
    }
  }
}
