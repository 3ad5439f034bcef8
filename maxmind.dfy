/** The MaxMind database reader, seen from the plugin: a database declares its
    type in its metadata, and a lookup decodes the record stored for an
    address into the requested record type. The decoding itself is foreign
    code, so a database carries it as functions. */
module MaxMind {
  import opened Basics
  import opened Records

  /** A parsed IP address (`net.IP`, a byte slice). */
  datatype IP = IP(bytes: seq<bv8>)

  /** What `reader.Lookup(ip, &record)` leaves: the record (the zero record
      when the address is not in the database, possibly partial on a decode
      error) and the error it returned, if any. */
  datatype Decoded<R> = Decoded(record: R, err: Option<string>)

  /** The decoder of one opened database, one function per record type. */
  datatype Decoder = Decoder(
    enterprise: IP -> Decoded<EnterpriseRecord>,
    isp: IP -> Decoded<IspRecord>,
    connectionType: IP -> Decoded<ConnectionTypeRecord>,
    domain: IP -> Decoded<DomainRecord>,
    anonymous: IP -> Decoded<AnonymousRecord>)

  /** An opened database: `reader.Metadata.DatabaseType` and its decoder. */
  datatype Database = Database(databaseType: string, decoder: Decoder)
}
