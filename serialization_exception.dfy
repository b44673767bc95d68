/** The one checked exception of the serializer package, raised by the loader
    and the serializer alike; its constructors tell the raising sites apart. */
module SerializationException {
  datatype SerializationError =
    | DeserializationError   // the loader: an I/O error while reading a line
    | ReaderCloseError       // the loader: an I/O error while closing the reader
    | SerializationFailure   // the serializer: an I/O error while writing a row
    | WriterCloseError       // the serializer: an I/O error while closing the writer
}
