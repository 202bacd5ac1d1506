/** Option and Result values, and the Python exceptions the driver can raise,
    so that error paths are values rather than preconditions. */
module Wrappers {

  datatype Option<+T> = None | Some(value: T)

  /** The exception kinds the modelled code raises (or lets escape). */
  datatype PyError =
    | ValueError      // IIC.check_flag with an empty mask, int() of a non-number
    | OSError         // a failed block read
    | IndexError      // indexing past the end of a list or tuple
    | KeyError        // a path that does not name an HDF5 object
    | TypeError       // indexing an HDF5 group with a list
    | AttributeError  // calling keys() on an HDF5 dataset
    | NameError       // WHO_AM_I did not match the expected device name
    | AssertionError  // a failed `assert` in Accel.getAxisValue

  datatype Result<+T> = Ok(value: T) | Err(error: PyError)
}
