/** Finite runs, one step after another.  A statement proved for every trace holds of every
    run, however long; `Extends` relates two moments of the same run. */
module Traces {

  datatype Trace<T> = Start | Then(before: Trace<T>, step: T)

  /** `earlier` is a moment that the run `later` has passed through. */
  ghost predicate Extends<T>(later: Trace<T>, earlier: Trace<T>) {
    later == earlier || (later.Then? && Extends(later.before, earlier))
  }
}
