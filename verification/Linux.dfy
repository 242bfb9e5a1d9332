/** Constants of the Linux headers, and the boundary between the driver and the user library. */
module Linux {
  const PCI_STD_NUM_BARS := 6

  const EPERM := 1
  const EIO := 5
  const ENOMEM := 12
  const EINVAL := 22

  /**
   What ioctl() of the C library returns for the status of the driver: a negative status goes to
   errno, and the caller sees -1.
   */
  function SystemCall(status: int): (r: int)
    ensures r == 0 <==> status == 0
    ensures r < 0 <==> status < 0
  {
    if status < 0 then -1 else status
  }
}
