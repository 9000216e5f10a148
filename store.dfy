/**
 * The record store: each collection is one flat file holding the whole
 * sequence of records, read in full before and written in full after a
 * change.
 */
module Store {

  /** What reading a collection file can find. */
  datatype Stored<T> =
    | Missing                     // no file
    | Unreadable                  // a file that cannot be read
    | Malformed                   // the file does not parse
    | Holding(records: seq<T>)    // a parsed sequence of records

  /** Reading a collection: a missing, unreadable or unparsable file reads as the empty collection. */
  function Load<T>(f: Stored<T>): (r: seq<T>)
    ensures f.Holding? ==> r == f.records
    ensures !f.Holding? ==> r == []
  {
    match f
    case Holding(records) => records
    case _ => []
  }

  /** Writing a collection replaces the whole file. */
  function Save<T>(records: seq<T>): (f: Stored<T>)
    ensures Load(f) == records
  {
    Holding(records)
  }

  /** At start-up a missing collection file is created holding the empty collection. */
  function Bootstrap<T>(f: Stored<T>): (g: Stored<T>)
    ensures f.Missing? ==> g == Holding([])
    ensures !f.Missing? ==> g == f
    ensures Load(g) == Load(f)
  {
    if f.Missing? then Holding([]) else f
  }

  /** A write after a failed read discards whatever the file held. */
  lemma SaveAfterFailedRead<T>(f: Stored<T>, added: seq<T>)
    requires !f.Holding?
    ensures Load(Save(Load(f) + added)) == added
  {
  }
}
