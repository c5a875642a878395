/** The tonic request/response layer, reduced to what the services build. */
module Grpc {

  /** A tonic `Status`, by the way the services create it. */
  datatype Status<E> =
    | InvalidArgument(message: string)  // `Status::invalid_argument(message)`
    | FromError(cause: E)               // `Status::from_error(err.into())`
    | HandlerPanic                      // the handler panicked (`unwrap` on a failed conversion)

  /** The empty protobuf message. */
  datatype Empty = Empty

  /** `Result<Response<T>, Status>`. */
  datatype Reply<T, E> = Response(message: T) | Refused(status: Status<E>)
}
