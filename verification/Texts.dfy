/** Facts about concatenation shared by the modules that work on text. */
module Texts {
  lemma Regroup(a: string, b: string, c: string)
    ensures a + b + c == a + (b + c)
  {
  }
}
