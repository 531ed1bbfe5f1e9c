/** The Python exceptions that can leave the `/ask` handler, and the reply it builds itself. */
module Errors {

  /** The keys of a log entry that the query line reads, in the order it reads them; in the JSON
      they are named `date`, `activity`, `duration`, `distance_km`, `i1` to `i5` and `note`. */
  datatype LogKey = Date | Activity | Duration | DistanceKm | I1 | I2 | I3 | I4 | I5 | Note

  /** An exception that escapes the handler (the web framework turns it into a 500 answer). */
  datatype Exception =
    | KeyError(key: LogKey)   // a log entry lacks one of the fields the query line reads
    | IndexError              // a search id outside the Python list bounds of the chunk list
    | NotSubscriptable        // TypeError: `chunks` is still None when a chunk is looked up
    | IndexFileError          // `faiss.read_index` raised
    | ChunksFileError         // opening or parsing `chunks.json` raised
    | SearchError             // `get_embedding` or `index.search` raised

  /** A JSON answer `{"recommendation": ...}` with its HTTP status. */
  datatype Reply = Reply(status: nat, recommendation: string)
}
