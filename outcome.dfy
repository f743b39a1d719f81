/** The verdict of a classification run: it completes with a count, or it
    stops on the first candidate that neither check accounts for (the
    source throws a RuntimeException there). */
module Outcomes {
  datatype Outcome<T> = Completed(value: T) | ClassificationProblem(message: string)
}
