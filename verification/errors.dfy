/**
 * The exceptions the modelled code raises or catches, as one datatype. Each
 * variant carries `str(e)` of the Python exception.
 */
module Errors {

  datatype Error =
    /** botocore's ClientError: the service's error code and the rendered message. */
    | ClientError(code: string, message: string)
    /** botocore's BotoCoreError (connection and credential problems). */
    | BotoCoreError(message: string)
    | AWSError(message: string)
    | ResourceScanError(message: string)
    | ValueError(message: string)
    | TypeError(message: string)
    | AttributeError(message: string)
    /** Any other exception raised by a library call. */
    | OtherError(message: string)
    | LLMError(message: string)
    | RateLimitError(message: string)
    | AuthenticationError(message: string)
    | ModelNotFoundError(message: string)
    | ContextLengthExceededError(message: string)
  {
    /** `str(e)`. */
    function Str(): string {
      message
    }

    /** `isinstance(e, LLMError)`: the four specific LLM errors subclass LLMError. */
    predicate IsLLMError() {
      LLMError? || RateLimitError? || AuthenticationError? || ModelNotFoundError? || ContextLengthExceededError?
    }
  }

  /**
   * How the S3, RDS and EBS scans report an exception: a ClientError (with the
   * service's message) and anything unexpected become ResourceScanError, a
   * BotoCoreError becomes AWSError.
   */
  function ScanFailure(service: string, e: Error): (r: Error)
    ensures r.ResourceScanError? || r.AWSError?
    ensures r.AWSError? <==> e.BotoCoreError?
    ensures e.ClientError? ==> r.message == "AWS API error during " + service + " scan: " + e.message
    ensures e.BotoCoreError? ==> r.message == "Boto3 error during " + service + " scan: " + e.message
    ensures !e.ClientError? && !e.BotoCoreError? ==> r.message == "Unexpected error during " + service + " scan: " + e.Str()
  {
    if e.ClientError? then ResourceScanError("AWS API error during " + service + " scan: " + e.message)
    else if e.BotoCoreError? then AWSError("Boto3 error during " + service + " scan: " + e.message)
    else ResourceScanError("Unexpected error during " + service + " scan: " + e.Str())
  }
}
