/** Identifiers that several components share. */
module Ids {
  type RunId = string
}
