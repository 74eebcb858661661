/** Log entries as they travel through the log store, the wire format and the protocol. */
module LogEntries {
  type byte = bv8

  // Value types of a log entry; any byte can arrive over the wire.
  const APP_LOG: byte := 1
  const CONF: byte := 2

  datatype LogEntry = LogEntry(
    term: nat,
    valType: byte,
    payload: seq<byte>,
    timestamp: nat,
    hasCrc: bool,
    crc: bv32)

  type Log = seq<LogEntry>

  /** Term of the last entry; the dummy entry at index 0 has term 0. */
  function LastTerm(log: Log): nat {
    if log == [] then 0 else log[|log| - 1].term
  }

  /** Term at a 1-based index; any index the store does not hold yields the dummy entry's term. */
  function TermAt(log: Log, index: nat): nat {
    if 1 <= index <= |log| then log[index - 1].term else 0
  }
}
