/** Option and Result datatypes shared by the IQC modules. */
module Wrappers {

  datatype Option<+T> = None | Some(value: T)

  /** The conditions the dashboard reports to the user instead of a value. */
  datatype Error =
    | NoData             // an empty series where a statistic is needed
    | DataNotUploaded    // "Uploaded data" selected but no file was given
    | UnsupportedLambda  // an EWMA weighting factor outside the lookup table
    | ZeroImprecision    // "Imprecision (%CV) value can not be zero"
    | BiasAtLeastTea     // "Attention: Bias >= TEa"
    | ZeroMean           // "Mean value can not be 0" (CV display)

  datatype Result<+T> = Ok(value: T) | Err(error: Error)
}
