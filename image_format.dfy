/** The conversion target formats and their wire tokens (`io.kraken.client.model.ImageFormat`). */
module ImageFormat {
  import opened Wrappers
  import EnumLookup

  datatype ImageFormat = Jpeg | Png | Gif

  /** `ImageFormat.values()`, in declaration order. */
  const Values: seq<ImageFormat> := [Jpeg, Png, Gif]

  /** `ordinal()`: the position of a constant in `Values`. */
  function Ordinal(f: ImageFormat): (i: nat)
    ensures i < |Values| && Values[i] == f
  {
    match f
    case Jpeg => 0
    case Png => 1
    case Gif => 2
  }

  /** The tokens the service accepts. */
  const Tokens: set<string> := {"jpeg", "png", "gif"}

  /** `getValue`: the token each constant was declared with. */
  function GetValue(f: ImageFormat): string {
    match f
    case Jpeg => "jpeg"
    case Png => "png"
    case Gif => "gif"
  }

  /** `toString` returns the token too; it is what the mapper writes and reads for an enum. */
  function ToString(f: ImageFormat): string {
    GetValue(f)
  }

  /** The contents of `REVERSE_LOOKUP` once the static initialiser has run. */
  function ReverseLookup(): map<string, ImageFormat> {
    EnumLookup.Table(Values, GetValue)
  }

  /** The static initialiser. */
  method InitReverseLookup() returns (lookup: map<string, ImageFormat>)
    ensures lookup == ReverseLookup()
    ensures forall f :: GetValue(f) in lookup && lookup[GetValue(f)] == f
  {
    lookup := EnumLookup.Build(Values, GetValue);
    forall f ensures GetValue(f) in lookup && lookup[GetValue(f)] == f {
      FromStringRoundTrip(f);
    }
  }

  /** `fromString`: a map lookup, so an unknown token gives null rather than an exception. */
  function FromString(value: string): Option<ImageFormat> {
    var lookup := ReverseLookup();
    if value in lookup then Some(lookup[value]) else None
  }

  /** There are three constants, each listed once, with pairwise distinct tokens. */
  lemma ValuesAreTheConstants()
    ensures |Values| == 3
    ensures forall f :: f in Values
    ensures EnumLookup.DistinctTokens(Values, GetValue)
    ensures forall f :: GetValue(f) in Tokens
  {
    forall f ensures f in Values {
      assert Values[Ordinal(f)] == f;
    }
  }

  /** `getValue` is injective. */
  lemma GetValueInjective(a: ImageFormat, b: ImageFormat)
    ensures GetValue(a) == GetValue(b) ==> a == b
  {
  }

  /** Reading back a written token gives the constant: `fromString(f.getValue()) == f`. */
  lemma {:induction false} FromStringRoundTrip(f: ImageFormat)
    ensures FromString(ToString(f)) == Some(f)
  {
    ValuesAreTheConstants();
    EnumLookup.TableFinds(Values, GetValue, Ordinal(f));
  }

  /** `fromString` finds a constant exactly for the three tokens. */
  lemma {:induction false} FromStringKnowsOnlyTokens(value: string)
    ensures FromString(value).Some? <==> value in Tokens
  {
    EnumLookup.TableKeys(Values, GetValue, value);
    if value in Tokens {
      var f :| GetValue(f) == value;
      assert GetValue(Values[Ordinal(f)]) == value;
    }
  }
}
