/** The custom serializer that writes a colour as one CSS-like string (`RGBASerializer`). */
module RGBASerializer {
  import opened Digits
  import Decimal
  import opened RGBA
  import opened Json

  /** The text `"rgba(" + red + ", " + green + ", " + blue + ", " + alpha + ")"`, each channel
      written as Java writes an `Integer` and alpha as `BigDecimal.toString` writes it. */
  function Serialize(c: RGBA): string {
    "rgba(" + IntToString(c.red) + ", " + IntToString(c.green) + ", " + IntToString(c.blue)
    + ", " + Decimal.ToString(c.alpha) + ")"
  }

  /** `serialize`: the generator receives a single string, never an object. */
  function ToJson(c: RGBA): (j: Json)
    ensures j.JString? && Included(j)
    ensures |j.s| >= 5 && j.s[..5] == "rgba(" && j.s[|j.s| - 1] == ')'
  {
    var s := Serialize(c);
    assert s[..5] == "rgba(";
    JString(s)
  }

  /** The colour the functional tests use, `new RGBA(100, 100, 100, BigDecimal.ONE)`. */
  lemma TestColour()
    ensures Serialize(RGBA(100, 100, 100, Decimal.One)) == "rgba(100, 100, 100, 1)"
  {
    assert NatToString(100) == "100" by {
      assert NatToString(10) == "10";
    }
  }

  /** For colours that pass the constructor, the string determines red, green and blue:
      channels are unsigned digit strings and a comma marks where each one ends. */
  lemma {:induction false} SerializeDistinguishesChannels(c1: RGBA, c2: RGBA)
    requires Valid(c1) && Valid(c2)
    requires Serialize(c1) == Serialize(c2)
    ensures c1.red == c2.red && c1.green == c2.green && c1.blue == c2.blue
  {
    assert IntToString(c1.red) == NatToString(c1.red) && IntToString(c2.red) == NatToString(c2.red);
    assert IntToString(c1.green) == NatToString(c1.green) && IntToString(c2.green) == NatToString(c2.green);
    assert IntToString(c1.blue) == NatToString(c1.blue) && IntToString(c2.blue) == NatToString(c2.blue);
    DigitFieldsDetermined(NatToString(c1.red), NatToString(c1.green), NatToString(c1.blue), Decimal.ToString(c1.alpha),
                          NatToString(c2.red), NatToString(c2.green), NatToString(c2.blue), Decimal.ToString(c2.alpha));
    NatToStringInjective(c1.red, c2.red);
    NatToStringInjective(c1.green, c2.green);
    NatToStringInjective(c1.blue, c2.blue);
  }

  /** The text layer of the lemma above. */
  lemma DigitFieldsDetermined(r1: string, g1: string, b1: string, a1: string, r2: string, g2: string, b2: string, a2: string)
    requires AllDigits(r1) && AllDigits(g1) && AllDigits(b1) && AllDigits(r2) && AllDigits(g2) && AllDigits(b2)
    requires "rgba(" + r1 + ", " + g1 + ", " + b1 + ", " + a1 + ")" == "rgba(" + r2 + ", " + g2 + ", " + b2 + ", " + a2 + ")"
    ensures r1 == r2 && g1 == g2 && b1 == b2
  {
    var v1, v2 := ", " + a1 + ")", ", " + a2 + ")";
    var u1, u2 := ", " + b1 + v1, ", " + b2 + v2;
    var t1, t2 := ", " + g1 + u1, ", " + g2 + u2;
    Regroup(r1, g1, b1, a1);
    Regroup(r2, g2, b2, a2);
    assert ("rgba(" + (r1 + t1))[5..] == r1 + t1;
    assert ("rgba(" + (r2 + t2))[5..] == r2 + t2;
    DigitPrefixUnique(r1, t1, r2, t2);
    assert t1[2..] == g1 + u1;
    assert t2[2..] == g2 + u2;
    DigitPrefixUnique(g1, u1, g2, u2);
    assert u1[2..] == b1 + v1;
    assert u2[2..] == b2 + v2;
    DigitPrefixUnique(b1, v1, b2, v2);
  }

  lemma Regroup(r: string, g: string, b: string, a: string)
    ensures "rgba(" + r + ", " + g + ", " + b + ", " + a + ")"
         == "rgba(" + (r + (", " + g + (", " + b + (", " + a + ")"))))
  {
  }
}
