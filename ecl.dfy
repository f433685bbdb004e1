/** Types shared by the drivers of the model: bytes, optional values and the
    library-wide status code `ecl::err`. */
module Ecl {

  /** `uint8_t`. */
  type Byte = bv8

  datatype Option<+T> = None | Some(value: T)

  /** `ecl::err`. Only the two codes the modelled drivers test for are named;
      every other code is `Other` with its number. */
  datatype Err = Ok | Io | Other(code: int)
}
