/** The coloured badge classes the pages share: one Tailwind colour name in
    three places. */
module Badges {
  datatype Tint = Red | Orange | Blue | Green | Purple | Yellow | Gray

  function TintName(t: Tint): (n: string)
    ensures |n| >= 3
  {
    match t
    case Red => "red"
    case Orange => "orange"
    case Blue => "blue"
    case Green => "green"
    case Purple => "purple"
    case Yellow => "yellow"
    case Gray => "gray"
  }

  /** `bg-{c}-500/10 text-{c}-500 border-{c}-500/20`. */
  function Classes(t: Tint): (r: string)
    ensures |r| > 5 && r[3] == TintName(t)[0] && r[5] == TintName(t)[2]
  {
    var n := TintName(t);
    "bg-" + n + "-500/10 text-" + n + "-500 border-" + n + "-500/20"
  }

  /** Different colours give different class strings. */
  lemma ClassesInjective(a: Tint, b: Tint)
    ensures Classes(a) == Classes(b) <==> a == b
  {
    if Classes(a) == Classes(b) {
      assert TintName(a)[0] == TintName(b)[0] && TintName(a)[2] == TintName(b)[2];
    }
  }
}
