/** The sentiment values that every stage passes around. */
module Sentiments {
  import opened Values

  /** A neg/neu/pos triple: one article's scores, or an average of several. */
  datatype Scores = Scores(neg: real, neu: real, pos: real)

  const ZeroScores := Scores(0.0, 0.0, 0.0)

  datatype Component = Neg | Neu | Pos

  function Get(s: Scores, c: Component): real {
    match c
    case Neg => s.neg
    case Neu => s.neu
    case Pos => s.pos
  }

  /** The `sentiment` mapping the news provider attaches to an article; a key
      the provider left out is None. A key present with a JSON null value has
      no representation of its own. */
  datatype SentimentFields = SentimentFields(
    polarity: Option<real>, neg: Option<real>, neu: Option<real>, pos: Option<real>)

  function Field(f: SentimentFields, c: Component): Option<real> {
    match c
    case Neg => f.neg
    case Neu => f.neu
    case Pos => f.pos
  }
}
