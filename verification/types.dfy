/** Identity, payload and error types shared by the metadata, header and consumer models. */
module Types {

  datatype Option<+T> = None | Some(value: T)

  /** The error categories the consumer reports, named after the library's response codes. */
  datatype ErrorCode =
    | ErrFail               // generic failure: subscribe/assign sequencing violated
    | ErrUnknownPartition   // operation on a partition that is not owned or does not exist
    | ErrInvalidArg         // e.g. pausing a partition outside the assignment

  datatype Result<+T> = Ok(value: T) | Err(error: ErrorCode)

  /** Payloads are opaque byte ranges. */
  newtype byte = b: int | 0 <= b < 256
  type Bytes = seq<byte>

  type Topic = string
  /** A partition index within a topic (a signed 32-bit value in the library). */
  type Partition = int

  datatype TopicPartition = TopicPartition(topic: Topic, partition: Partition)

  /** Offsets are positions in an append-only log, so they are natural numbers here. */
  type Offset = nat

  /** Used both as a commit request and as a commit/query result. */
  type TopicPartitionOffsets = map<TopicPartition, Offset>
}
