/** The render plan: the drawing commands a block issues on the shared
    800x480 canvas, in order, and the per-block fallback pattern. */
module Render {
  import opened Common

  const ImgWidth: int := 800
  const ImgHeight: int := 480

  /** A calendar date; dates compare chronologically, that is lexicographically. */
  datatype Date = Date(year: int, month: int, day: int)

  /** One drawing command on the canvas. */
  datatype Draw =
    | Text(x: int, y: int, text: string)      // text whose top-left corner is (x, y)
    | DateText(x: int, y: int, date: Date)    // a date printed with a weekday/month/day format
    | Icon(x: int, y: int, name: string)      // a Material icon pasted at (x, y)
    | CenteredText(y: int, text: string)      // text centred horizontally from its measured width
    | WrappedFooter(width: nat, text: string) // text wrapped to `width` columns, centred near the bottom

  /** An attempt that raised: what it had already drawn, and why it stopped. */
  datatype Interrupted = Interrupted(drawn: seq<Draw>, cause: Error)

  /** The `except` of a block: a failed attempt keeps what it drew and adds its fallback label. */
  function Settle(attempt: Result<seq<Draw>, Interrupted>, fallback: Draw): (drawn: seq<Draw>)
    ensures attempt.Success? ==> drawn == attempt.value
    ensures attempt.Failure? ==> drawn == attempt.error.drawn + [fallback]
  {
    match attempt
    case Success(d) => d
    case Failure(Interrupted(partial, _)) => partial + [fallback]
  }
}
