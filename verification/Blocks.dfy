/** The structure-tagged blocks of a parsed document (`knowledge/parsing.py`). */
module Blocks {
  import opened Common

  datatype Kind = Heading | Paragraph | Item

  /** `headings` is the heading path at this point, outermost first; `level` is 0 except for a
      heading. */
  datatype Block = Block(text: string, kind: Kind, page: Option<nat>, headings: seq<string>, level: nat)
}
