/** What a reload makes of an append-only file of lines whose writer may die inside a line. The next writer does not
    repair the file: it writes behind the fragment. TornLog proves in bytes that the RFQ log behaves like this. */
module LogFile {
  /** What the complete lines amount to, what a reload shows, and whether the last line is open. */
  datatype Reloaded<+T> = Reloaded(index: T, shown: T, torn: bool)

  function Intact<T>(index: T): Reloaded<T> { Reloaded(index, index, false) }

  /** A complete line counts if it starts a line; behind a fragment it is lost, and closes the open line. applied is
      what the line makes of the index. */
  function Appended<T>(m: Reloaded<T>, applied: T): Reloaded<T> { Intact(if m.torn then m.index else applied) }

  /** A cut line opens the line. One that lacks only its newline is shown, until something is written behind it. */
  function Cut<T>(m: Reloaded<T>, applied: T, complete: bool): Reloaded<T> {
    Reloaded(m.index, if complete && !m.torn then applied else m.index, true)
  }
}
