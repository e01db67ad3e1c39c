/** Random variables as the modelled code sees them: an identity and a state-space tag. */
module Variables {

  /** The state-space type of a variable (`StateSpaceTypeEnum`). Only the distinction
      between REAL and every other tag matters to the modelled code. */
  datatype StateSpaceType = Real | FiniteSet | SparseFiniteSet

  /** An immutable variable: its identifier and its declared state-space type. Two
      variables of the same type are still different variables. */
  datatype Variable = Variable(id: nat, stateSpace: StateSpaceType)
}
