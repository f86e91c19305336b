/** The names given to the parts of a pipeline. */
module PartNames {

  function DigitChar(d: nat): char
    requires d < 10
  {
    "0123456789"[d]
  }

  /** Decimal notation. */
  function Digits(n: nat): string {
    (if n < 10 then [] else Digits(n / 10)) + [DigitChar(n % 10)]
  }

  function PartId(prefix: string, topic: string, kvaddr: string, index: nat): string {
    prefix + "_" + topic + "_" + kvaddr + "_" + Digits(index)
  }

  lemma {:induction false} DigitsHaveNoDelimiter(n: nat)
    ensures '_' !in Digits(n)
  {
    if n >= 10 { DigitsHaveNoDelimiter(n / 10); }
  }

  lemma DigitCharsDiffer(d: nat, e: nat)
    requires d < 10 && e < 10 && DigitChar(d) == DigitChar(e)
    ensures d == e
  {
  }

  lemma {:induction false} DigitsInjective(m: nat, n: nat)
    requires Digits(m) == Digits(n)
    ensures m == n
  {
    var a, b := Digits(m), Digits(n);
    assert a[|a| - 1] == DigitChar(m % 10) && b[|b| - 1] == DigitChar(n % 10);
    DigitCharsDiffer(m % 10, n % 10);
    if m >= 10 && n >= 10 {
      assert a[..|a| - 1] == Digits(m / 10) && b[..|b| - 1] == Digits(n / 10);
      DigitsInjective(m / 10, n / 10);
    } else {
      DigitsLength(m);
      DigitsLength(n);
    }
  }

  lemma {:induction false} DigitsLength(n: nat)
    ensures n >= 10 <==> |Digits(n)| >= 2
    ensures |Digits(n)| >= 1
  {
    if n >= 10 { DigitsLength(n / 10); }
  }

  lemma LastDelimiter(x: string, d: string, y: string, e: string)
    requires x + "_" + d == y + "_" + e && '_' !in d && '_' !in e
    ensures x == y && d == e
  {
    var w, v := x + "_" + d, y + "_" + e;
    assert w[|x|] == '_' && v[|y|] == '_';
    assert x == w[..|x|] && y == v[..|y|];
    assert d == w[|x| + 1..] && e == v[|y| + 1..];
  }

  /** Parts of one kind in one pipeline get the same name only if they are on the same node and have the same
      index, even when addresses contain the delimiter. */
  lemma PartIdInjective(prefix: string, topic: string, a: string, i: nat, b: string, j: nat)
    requires PartId(prefix, topic, a, i) == PartId(prefix, topic, b, j)
    ensures a == b && i == j
  {
    var stem := prefix + "_" + topic + "_";
    DigitsHaveNoDelimiter(i);
    DigitsHaveNoDelimiter(j);
    LastDelimiter(stem + a, Digits(i), stem + b, Digits(j));
    assert a == (stem + a)[|stem|..] && b == (stem + b)[|stem|..];
    DigitsInjective(i, j);
  }

  lemma FirstDelimiter(p: string, x: string, q: string, y: string)
    requires p + "_" + x == q + "_" + y && '_' !in p && '_' !in q
    ensures p == q && x == y
  {
    var w, v := p + "_" + x, q + "_" + y;
    assert w[|p|] == '_' && v[|q|] == '_';
    assert p == w[..|p|] && q == v[..|q|] && x == w[|p| + 1..] && y == v[|q| + 1..];
  }

  /** A name begins with its kind and its topic. */
  lemma PartIdParts(prefix: string, topic: string, a: string, i: nat)
    ensures PartId(prefix, topic, a, i) == (prefix + "_" + (topic + "_" + a)) + "_" + Digits(i)
  {
  }

  /** Exactly when two names are equal, for kinds without the delimiter: same kind, same index, and topics and addresses
      that are the same when joined. In particular source and target nozzles never share a name. */
  lemma PartIdEqualIff(p: string, t: string, a: string, i: nat, q: string, u: string, b: string, j: nat)
    requires '_' !in p && '_' !in q
    ensures PartId(p, t, a, i) == PartId(q, u, b, j) <==> p == q && i == j && t + "_" + a == u + "_" + b
  {
    PartIdParts(p, t, a, i);
    PartIdParts(q, u, b, j);
    if PartId(p, t, a, i) == PartId(q, u, b, j) {
      DigitsHaveNoDelimiter(i);
      DigitsHaveNoDelimiter(j);
      LastDelimiter(p + "_" + (t + "_" + a), Digits(i), q + "_" + (u + "_" + b), Digits(j));
      DigitsInjective(i, j);
      FirstDelimiter(p, t + "_" + a, q, u + "_" + b);
    }
  }
}
