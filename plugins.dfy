/** The pluggable capabilities the index walker hands to its node
    inspectors. Their implementations are not part of this model, so
    they are kept abstract: nothing is assumed about them beyond
    identity. */
module Plugins {

  /** A Matcher instance: decides whether an input value satisfies a stored level value. */
  type Matcher(==)

  /** A Type instance: converts between textual and typed level values. */
  type ValueType(==)
}
