/** The diagnostics the macro can throw. */
module NSInitErrors {

  datatype NSInitError = OnlyApplicableToStructOrClass | UnableToBuildInit

  /** The human-readable `description` shown as the compiler diagnostic: one full sentence per case. */
  function Description(e: NSInitError): (s: string)
    ensures |s| > 0 && s[|s| - 1] == '.'
  {
    match e
    case OnlyApplicableToStructOrClass => "@NSInit is only applied to a struct or class."
    case UnableToBuildInit => "@NSInit was unable to build the initialzer."
  }

  /** The exact messages, the misspelling of "initializer" included. */
  lemma DescriptionTexts()
    ensures Description(OnlyApplicableToStructOrClass) == "@NSInit is only applied to a struct or class."
    ensures Description(UnableToBuildInit) == "@NSInit was unable to build the initialzer."
  {
  }

  /** The two errors can be told apart by their messages. */
  lemma DescriptionInjective(a: NSInitError, b: NSInitError)
    ensures Description(a) == Description(b) <==> a == b
  {
    if a != b {
      assert |Description(a)| != |Description(b)|;
    }
  }
}
