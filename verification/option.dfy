/** An optional value: used for the game field of the channel metadata and
    for the reply a chat line may or may not produce. */
module Opt {

  datatype Option<+T> = None | Some(value: T)

  /** The list holding the value, if there is one. */
  function ToSeq<T>(o: Option<T>): (s: seq<T>)
    ensures |s| <= 1
    ensures o.Some? <==> |s| == 1
    ensures o.Some? ==> s[0] == o.value
  {
    match o
    case None => []
    case Some(v) => [v]
  }
}
