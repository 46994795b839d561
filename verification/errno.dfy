/** Kernel error numbers the driver returns (negated, as the kernel does). */
module Errno {
  const ENOMEM: int := 12
  const EINVAL: int := 22
}
