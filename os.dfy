/** What `os.Stat` tells its callers. The core distinguishes "does not exist"
    (`os.IsNotExist(err)`) from every other failure, and some callers treat the
    two differently. */
module Os {

  datatype Stat = Found | NotFound | StatFailed(reason: string)

  /** The file-system view the model is given: the result of `os.Stat` per path. */
  type StatFn = string -> Stat

  /** `os.IsNotExist(err)` on the error `os.Stat` returned. */
  predicate IsNotExist(s: Stat) {
    s.NotFound?
  }
}
