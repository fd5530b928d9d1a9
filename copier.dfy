/** The errors the store reports and the isolation copy that can produce one. */
module Copier {
  import opened Wrappers
  import opened Pb

  /**
   * `AlreadyExists` is the store's sentinel error; `CopyFailure` wraps the copying
   * library's error (its message is the cause); `Other` is any error a caller-supplied
   * consumer may return.
   */
  datatype Error = AlreadyExists | CopyFailure(cause: string) | Other(message: string)

  /**
   * Duplicates a laptop. A laptop is a value, so the copy is the laptop itself and cannot
   * alias the original; whether the copying library fails is the parameter `fault`.
   */
  function DeepCopy(laptop: Laptop, fault: Option<string>): (r: Result<Laptop, Error>)
    ensures r.Success? <==> fault.None?
    ensures r.Success? ==> r.value == laptop
    ensures r.Failure? ==> r.error == CopyFailure(fault.value)
  {
    match fault
    case None => Success(laptop)
    case Some(cause) => Failure(CopyFailure(cause))
  }
}
