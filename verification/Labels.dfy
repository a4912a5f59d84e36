/** Document classifications (`config.py`). */
module Labels {
  /** A document class; a name that is none of the three counts as confidential. */
  datatype Label = Public | Internal | Confidential | Unlisted(name: string)

  function Rank(l: Label): nat {
    match l
    case Public => 0
    case Internal => 1
    case Confidential => 2
    case Unlisted(_) => 2
  }
}
