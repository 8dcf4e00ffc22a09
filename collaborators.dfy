/** Entities the configuration refers to but whose source is not part of this
    model. Each is known only through what the launcher asks of it: the
    command-line tokens its own `toParameter` yields. */
module Collaborators {

  /** A `RunescapeAccount`, represented by the tokens it encodes itself as. */
  datatype Account = Account(tokens: seq<string>)

  /** A `World` of the pool, represented by the tokens it encodes itself as. */
  datatype World = World(tokens: seq<string>)

  /** The world-selection enum that older versions persisted in place of a
      list of worlds. */
  datatype WorldType = WorldType(name: string)
}
