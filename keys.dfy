/** Parameter keys of the Sequential model (model.go): "layer_<idx>_<name>" with idx written in
    decimal, the key under which the optimizer keeps a parameter's state. */
module Keys {

  function DigitChar(d: nat): (c: char)
    requires d < 10
    ensures '0' <= c <= '9'
  {
    "0123456789"[d]
  }

  /** The decimal numeral of n, as Go's %d prints it. */
  function NatToString(n: nat): (s: string)
    ensures |s| >= 1
    ensures forall k | 0 <= k < |s| :: '0' <= s[k] <= '9'
  {
    if n < 10 then [DigitChar(n)] else NatToString(n / 10) + [DigitChar(n % 10)]
  }

  lemma DigitCharInjective(a: nat, b: nat)
    requires a < 10 && b < 10 && DigitChar(a) == DigitChar(b)
    ensures a == b
  {
  }

  lemma {:induction false} NatToStringLength(n: nat)
    ensures n >= 10 ==> |NatToString(n)| >= 2
  {
  }

  /** Distinct numbers have distinct numerals. */
  lemma {:induction false} NatToStringInjective(a: nat, b: nat)
    requires NatToString(a) == NatToString(b)
    ensures a == b
  {
    if a < 10 && b < 10 {
      DigitCharInjective(a, b);
    } else if a < 10 {
      NatToStringLength(b);
    } else if b < 10 {
      NatToStringLength(a);
    } else {
      var sa, sb := NatToString(a), NatToString(b);
      assert sa[..|sa| - 1] == NatToString(a / 10);
      assert sb[..|sb| - 1] == NatToString(b / 10);
      NatToStringInjective(a / 10, b / 10);
      DigitCharInjective(a % 10, b % 10);
    }
  }

  const Prefix: string := "layer_"

  /** The optimizer key of parameter `name` of layer `idx`. */
  function Key(idx: nat, name: string): (k: string)
    ensures |k| == |Prefix| + |NatToString(idx)| + 1 + |name|
    ensures k[..|Prefix|] == Prefix
  {
    Prefix + NatToString(idx) + "_" + name
  }

  /** A numeral without '_' between "layer_" and the next '_' is recovered from the key. */
  lemma SplitAtSeparator(d1: string, n1: string, d2: string, n2: string)
    requires '_' !in d1 && '_' !in d2
    requires Prefix + d1 + "_" + n1 == Prefix + d2 + "_" + n2
    ensures d1 == d2 && n1 == n2
  {
    var k := Prefix + d1 + "_" + n1;
    var k2 := Prefix + d2 + "_" + n2;
    assert k[|Prefix| + |d1|] == '_';
    assert k2[|Prefix| + |d2|] == '_';
    assert |d1| == |d2|;
    assert d1 == k[|Prefix|..|Prefix| + |d1|];
    assert d2 == k2[|Prefix|..|Prefix| + |d2|];
    assert n1 == k[|Prefix| + |d1| + 1..];
    assert n2 == k2[|Prefix| + |d2| + 1..];
  }

  /** Different (layer, name) pairs never share a key, whatever the names. */
  lemma KeyInjective(i: nat, a: string, j: nat, b: string)
    requires Key(i, a) == Key(j, b)
    ensures i == j && a == b
  {
    var di, dj := NatToString(i), NatToString(j);
    assert '_' !in di && '_' !in dj;
    SplitAtSeparator(di, a, dj, b);
    NatToStringInjective(i, j);
  }

  lemma KeyExample()
    ensures Key(12, "weights") == "layer_12_weights"
  {
    assert NatToString(12) == "12";
  }
}
