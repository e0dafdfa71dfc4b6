/** CSS text the components produce. */
module Css {

  /** A reference to a custom property: `var(--name)`. */
  function Var(name: string): (r: string)
    ensures |r| == |name| + 7
    ensures r[..6] == "var(--" && r[6..|r| - 1] == name && r[|r| - 1] == ')'
  {
    "var(--" + name + ")"
  }

  /** A custom property reference determines the property's name. */
  lemma VarInjective(a: string, b: string)
    ensures Var(a) == Var(b) ==> a == b
  {
    if Var(a) == Var(b) {
      assert a == Var(a)[6..|Var(a)| - 1];
    }
  }
}
