/** Status codes shared by every layer of the firmware, and the C integer widths it uses. */
module ValStatus {

  /** VAL_Status: the result of every driver and application call. */
  datatype Status = Ok | Error | Busy | Timeout | Param

  /** uint8_t. */
  type u8 = x: int | 0 <= x < 256

  datatype Option<+T> = None | Some(value: T)

  /** C's conversion of any integer to uint8_t: the value modulo 256. */
  function ToU8(n: int): (b: u8)
    ensures 0 <= n < 256 ==> b == n
    ensures (n - b) % 256 == 0
  {
    n % 256
  }
}
