/** The boundary to the file system: the call both plugins make to the write
    helper `utils::write_or_create`, whose own behaviour is not part of this
    model and is supplied as an oracle. */
module Files {
  import opened Wrappers
  import opened Text

  /** A relative or absolute path as its segments. */
  datatype Path = Path(segments: seq<string>) {
    /** `PathBuf::join` with a plain file name. */
    function Join(name: string): Path {
      Path(segments + [name])
    }
  }

  /** The flags set on `std::fs::OpenOptions`; unset flags are false. */
  datatype OpenOptions = OpenOptions(write: bool, create: bool, truncate: bool, append: bool)

  /** One call `write_or_create(options, path, bytes, overwrite)`. */
  datatype WriteCall = WriteCall(options: OpenOptions, path: Path, bytes: seq<byte>, overwrite: bool)

  /** What the write helper answers to a call, given the calls made before it in
      the same run: whether it changed the file, or the error it ran into. */
  type WriteHelper = (seq<WriteCall>, WriteCall) -> Result<bool>

  /** An operation's result together with the write calls it made, in order. */
  datatype Written<T> = Written(result: Result<T>, calls: seq<WriteCall>)
}
