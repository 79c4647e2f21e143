/** The errors the client reports: the generic `KrakenIoException` and its subclass
    `KrakenIoRequestException`, which carries the failure the service answered with. */
module KrakenIoRequestException {
  import opened Wrappers
  import opened Json
  import UploadResponse

  /** What a generic error wraps: a body that could not be bound, or a response of the
      other variant than the status called for (a failed cast). */
  datatype Cause = ParseCause(failure: ParseFailure) | ClassCastCause

  datatype KrakenIoException =
    | KrakenIoException(message: string, cause: Option<Cause>)
    | KrakenIoRequestException(message: string, cause: Option<Cause>, failedUploadResponse: UploadResponse.UploadResponse)

  /** The two constructors of `KrakenIoRequestException`, with and without a cause: the
      message and cause go to the base exception, and the failure the service answered with
      is kept. */
  function NewRequestException(message: string, cause: Option<Cause>,
                               failedUploadResponse: UploadResponse.UploadResponse): (e: KrakenIoException)
    ensures e.KrakenIoRequestException?
    ensures GetMessage(e) == message && e.cause == cause && e.failedUploadResponse == failedUploadResponse
  {
    KrakenIoRequestException(message, cause, failedUploadResponse)
  }

  /** The message held by the base exception, whichever kind it is. */
  function GetMessage(e: KrakenIoException): string {
    e.message
  }
}
