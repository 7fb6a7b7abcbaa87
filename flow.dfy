/** The flow returns of GStreamer's data path, shared by the sink's chain handler and the receiver's `fill`. */
module Flow {
  /** `gst::FlowSuccess`, reduced to the one success the modelled code produces. */
  datatype FlowSuccess = FlowOk

  /** `gst::FlowError`. */
  datatype FlowError = NotLinked | Flushing | Eos | NotNegotiated | Error | NotSupported
}
