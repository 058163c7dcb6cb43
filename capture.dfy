/**
 * The vocabulary the OV5640 driver borrows from its parallel-capture base
 * library: status codes, colour spaces and buffer (re)allocation policies.
 * The base library itself (peripheral set-up, DMA, buffers) is not part of
 * this model; its calls appear only as opaque events and status inputs.
 */
module Capture {

  /** Status codes returned by begin() and config(). */
  datatype Status =
    | StatusOk
    | ErrCameraId
    | ErrMalloc
    | ErrOther(code: int)   // any other failure reported by the base library

  /** The two colour spaces the driver's format switch knows. */
  datatype Colorspace = RGB565 | YUV

  /** Buffer (re)allocation policy handed to the base library by config(). */
  datatype Realloc = ReallocNone | ReallocChange | ReallocLarger
}
