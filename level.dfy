/** The confidence level α of every estimator. */
module Confidence {
  /** A confidence level.  The core is meant for α in (0, 1); the only value its
      formulas cannot take is 1, where 1/(1 − α) is undefined. */
  type Level = a: real | a != 1.0
}
