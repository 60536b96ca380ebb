/**
 * Kernel vocabulary shared by the PRIME model: errno values, kernel pointers that may carry
 * an error code (ERR_PTR), page tokens and the page size.
 */
module Kernel {

  // errno values returned (negated) by the code of this model
  const ENOENT: int := 2
  const EINTR: int := 4
  const EBADF: int := 9
  const ENOMEM: int := 12
  const EINVAL: int := 22
  const ENOSYS: int := 38

  /** Largest errno an ERR_PTR can carry. */
  const MAX_ERRNO: int := 4095

  /** The platform page size: any positive constant will do for this model. */
  const PAGE_SIZE: nat := 4096

  /** A negated errno, as kernel functions return it. */
  predicate IsErrno(e: int) {
    -MAX_ERRNO <= e < 0
  }

  /**
   * A kernel pointer: NULL, the address of a live object, or an ERR_PTR encoding a negated
   * errno. Pointer equality of two `Addr` values is the identity of the referenced object.
   */
  datatype Ptr<T> = Null | Addr(target: T) | ErrPtr(errno: int)
  {
    /** IS_ERR */
    predicate IsErr() { ErrPtr? }

    /** IS_ERR_OR_NULL */
    predicate IsErrOrNull() { !Addr? }

    /** PTR_ERR of a pointer that is NULL or an ERR_PTR; PTR_ERR(NULL) is 0. */
    function PtrErr(): int
      requires IsErrOrNull()
    {
      if Null? then 0 else errno
    }

    /** Well-formed: an ERR_PTR carries a negated errno. */
    predicate WellFormed() { ErrPtr? ==> IsErrno(errno) }
  }

  /** An opaque physical page: only its identity matters here. */
  datatype Page = Page(pfn: nat)

  /** A process-local GEM handle (uint32_t). */
  type Handle = nat

  datatype Option<T> = None | Some(value: T)
}
