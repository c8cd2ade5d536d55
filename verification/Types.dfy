/** Values shared by every component of the model. */
module Types {

  datatype Option<+T> = None | Some(value: T)

  /** A Go `error`: nil, or a failure with a reason. */
  datatype Error = Nil | Failed(reason: string)

  /** The parts of a message the scheduling and committing code looks at. The
      offset is only meaningful for messages that come from Kafka. */
  datatype Message = Message(messageID: string, offset: int)

  function Max(a: int, b: int): int { if a < b then b else a }

  function Min(a: int, b: int): int { if a < b then a else b }

  function Flatten<T>(ss: seq<seq<T>>): seq<T> {
    if ss == [] then [] else Flatten(ss[..|ss| - 1]) + ss[|ss| - 1]
  }

  lemma FlattenAppend<T>(ss: seq<seq<T>>, s: seq<T>)
    ensures Flatten(ss + [s]) == Flatten(ss) + s
  {
  }
}
