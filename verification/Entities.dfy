/** What the components of the node call things by. */
module Entities {
  /** Account names are fixed-size strings compared as numbers; 0 is the empty name. */
  type Name = int

  type AccountId = int
  type NfaId = int

  const MAX_SIMINGS := 21
  const NEVER := 0xFFFF_FFFF
}
