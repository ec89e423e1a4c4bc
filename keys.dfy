/** The extended keys of the BIP32 library, kept opaque. */
module Keys {

  /**
   * An extended key node. The library's parsing, serialisation and child
   * derivation are not modelled: `Key(id)` stands for a node the library
   * produced, and `Child(parent, index)` for the node it derives from
   * `parent` at `index`. Two nodes are equal exactly when they were obtained
   * the same way, which is all the account layer relies on.
   */
  datatype Node = Key(id: string) | Child(parent: Node, index: int)

  /** Turns a node into an address, as the caller-supplied address function does. */
  type AddressFn = Node -> string
}
