/** The neural-network library the agents use (neataptic). Its code is not
    part of this model: a network's state is a `Genome`, and the library's
    operations are function values supplied by the caller. `createBrain`
    (`architect.Perceptron(12, 8, 2)` with TANH squashing) yields a new
    random network on each call, so its callers are handed the genome it
    produced. */
module Neural {
  /** The weights and topology of one network. */
  type Genome = seq<real>

  /** `activate` is `network.activate(inputs)`, `mutate` is
      `network.mutate(methods.mutation.FFW)`, `crossOver` is
      `Network.crossOver(a, b)`, and `toJson`/`fromJson` are the
      serialisation pair used by `clone`. */
  datatype Library = Library(
    activate: (Genome, seq<real>) -> seq<real>,
    mutate: Genome -> Genome,
    crossOver: (Genome, Genome) -> Genome,
    toJson: Genome -> string,
    fromJson: string -> Genome)

  /** Serialising a network and reading it back gives a network that
      answers every input as the original does. */
  ghost predicate JsonRoundTrip(lib: Library)
  {
    forall g, input :: lib.activate(lib.fromJson(lib.toJson(g)), input) == lib.activate(g, input)
  }
}
