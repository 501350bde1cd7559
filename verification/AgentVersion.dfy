/** Agent version compatibility: dotted numeric versions are compared component by component, padded
    with zeros to four components; anything else must match exactly. */
module AgentVersion {
  import opened Domain

  const MAX_U64: nat := 0xFFFF_FFFF_FFFF_FFFF

  predicate Digit(c: char) {
    '0' <= c <= '9'
  }

  function Split(s: string): (parts: seq<string>)
    ensures |parts| > 0
  {
    if s == [] then [[]]
    else
      var rest := Split(s[1..]);
      if s[0] == '.' then [[]] + rest else [[s[0]] + rest[0]] + rest[1..]
  }

  function DigitValue(c: char): (v: nat)
    requires Digit(c)
    ensures v < 10
  {
    c as int - '0' as int
  }

  function DigitsValue(s: string): nat
    requires forall i :: 0 <= i < |s| ==> Digit(s[i])
  {
    if s == [] then 0 else DigitsValue(s[..|s| - 1]) * 10 + DigitValue(s[|s| - 1])
  }

  function ParseU64(s: string): Option<nat> {
    if s != [] && (forall i :: 0 <= i < |s| ==> Digit(s[i])) && DigitsValue(s) <= MAX_U64
    then Some(DigitsValue(s)) else None
  }

  function ParseAll(parts: seq<string>): (r: Option<seq<nat>>)
    ensures r.Some? ==> |r.value| == |parts|
  {
    if parts == [] then Some([])
    else match (ParseU64(parts[0]), ParseAll(parts[1..]))
      case (Some(first), Some(rest)) => Some([first] + rest)
      case _ => None
  }

  /** Up to four numeric components, padded with zeros. */
  function NumericCore(s: string): (r: Option<seq<nat>>)
    ensures r.Some? ==> |r.value| == 4
  {
    var parts := Split(s);
    if |parts| > 4 then None
    else match ParseAll(parts)
      case None => None
      case Some(numbers) => Some(numbers + seq(4 - |numbers|, i => 0))
  }

  predicate AtLeast(a: seq<nat>, b: seq<nat>)
    requires |a| == |b|
  {
    a == [] || a[0] > b[0] || (a[0] == b[0] && AtLeast(a[1..], b[1..]))
  }

  predicate AgentVersionSatisfies(agent: string, minimum: string) {
    match (NumericCore(agent), NumericCore(minimum))
    case (Some(a), Some(m)) => AtLeast(a, m)
    case _ => agent == minimum
  }

  lemma {:induction false} AtLeastIsAnOrder(a: seq<nat>, b: seq<nat>, c: seq<nat>)
    requires |a| == |b| == |c|
    ensures AtLeast(a, b) || AtLeast(b, a)
    ensures AtLeast(a, b) && AtLeast(b, a) ==> a == b
    ensures AtLeast(a, b) && AtLeast(b, c) ==> AtLeast(a, c)
  {
    if a != [] {
      AtLeastIsAnOrder(a[1..], b[1..], c[1..]);
      if AtLeast(a, b) && AtLeast(b, a) {
        assert a == [a[0]] + a[1..] && b == [b[0]] + b[1..];
      }
    }
  }
}
