/** Files as byte sequences: an input file read through a cursor, and what a codec run leaves behind. */
module Files {
  import opened Bytes
  import opened Errors

  /** A file system: path to contents. A path that is not a key does not exist. */
  type Path = string
  type FileSystem = map<Path, Bytes>

  /** The result of one encrypt or decrypt call: its outcome, and the contents of the output
      file if the call created it (`None` when it failed before creating it). */
  datatype Run = Run(outcome: Result<()>, output: Option<Bytes>)

  /** An open input file: fixed contents and a read position, advanced by each read. */
  class InputFile {
    const data: Bytes
    var pos: nat

    ghost predicate Valid()
      reads this
    {
      pos <= |data|
    }

    constructor (contents: Bytes)
      ensures Valid() && data == contents && pos == 0
    {
      data := contents;
      pos := 0;
    }

    /** One `read` into a buffer of `max` bytes: delivers some non-empty prefix of what is left,
        of any length up to `max`, or nothing at end of input. How much one call delivers is
        not determined. */
    method Read(max: nat) returns (chunk: Bytes)
      requires Valid()
      modifies this
      ensures Valid() && old(pos) <= pos
      ensures chunk == data[old(pos)..pos]
      ensures |chunk| <= max
      ensures chunk == [] <==> max == 0 || old(pos) == |data|
    {
      if max == 0 || pos == |data| {
        chunk := [];
      } else {
        assert 0 < 1 <= max && pos + 1 <= |data|;
        var n :| 0 < n <= max && pos + n <= |data|;
        chunk := data[pos..pos + n];
        pos := pos + n;
      }
    }

    /** `read_exact`: exactly n bytes, or an end-of-input error that consumes the rest. */
    method ReadExact(n: nat) returns (r: Result<Bytes>)
      requires Valid()
      modifies this
      ensures Valid()
      ensures old(pos) + n <= |data| ==> r == Ok(data[old(pos)..old(pos) + n]) && pos == old(pos) + n
      ensures old(pos) + n > |data| ==> r == Err(IoError(UnexpectedEof)) && pos == |data|
    {
      if pos + n <= |data| {
        r := Ok(data[pos..pos + n]);
        pos := pos + n;
      } else {
        r := Err(IoError(UnexpectedEof));
        pos := |data|;
      }
    }

    /** `read_u8`. */
    method ReadU8() returns (r: Result<byte>)
      requires Valid()
      modifies this
      ensures Valid()
      ensures old(pos) < |data| ==> r == Ok(data[old(pos)]) && pos == old(pos) + 1
      ensures old(pos) == |data| ==> r == Err(IoError(UnexpectedEof)) && pos == |data|
    {
      var b := ReadExact(1);
      if b.Ok? {
        r := Ok(b.value[0]);
      } else {
        r := Err(b.error);
      }
    }

    /** `read_u32`: four bytes, most significant first. */
    method ReadU32() returns (r: Result<u32>)
      requires Valid()
      modifies this
      ensures Valid()
      ensures old(pos) + 4 <= |data| ==> r == Ok(FromBigEndian(data[old(pos)..old(pos) + 4])) && pos == old(pos) + 4
      ensures old(pos) + 4 > |data| ==> r == Err(IoError(UnexpectedEof)) && pos == |data|
    {
      var b := ReadExact(4);
      if b.Ok? {
        FromBigEndianBound(b.value);
        Pow256Widths();
        r := Ok(FromBigEndian(b.value));
      } else {
        r := Err(b.error);
      }
    }
  }
}
