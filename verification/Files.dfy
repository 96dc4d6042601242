/** A binary file opened for reading and writing, with its position. */
module Files {
  type Byte = x: int | 0 <= x < 256

  type Bytes = seq<Byte>

  class File {
    var data: Bytes
    var pos: nat

    ghost predicate Valid()
      reads this
    {
      pos <= |data|
    }

    constructor ()
      ensures Valid() && data == [] && pos == 0
    {
      data, pos := [], 0;
    }

    method Seek(to: nat)
      requires to <= |data|
      modifies this`pos
      ensures Valid() && pos == to
    {
      pos := to;
    }

    /** Reads at most `n` bytes. */
    method Read(n: nat) returns (r: Bytes)
      requires Valid()
      modifies this`pos
      ensures Valid() && pos == old(pos) + |r|
      ensures r == data[old(pos)..pos] && |r| == (if n <= |data| - old(pos) then n else |data| - old(pos))
    {
      var end := if n <= |data| - pos then pos + n else |data|;
      r := data[pos..end];
      pos := end;
    }

    /** Overwrites from the position on, extending the file where needed. */
    method Write(bytes: Bytes)
      requires Valid()
      modifies this
      ensures Valid() && pos == old(pos) + |bytes|
      ensures data == old(data)[..old(pos)] + bytes
                      + (if pos <= |old(data)| then old(data)[pos..] else [])
    {
      var end := pos + |bytes|;
      data := data[..pos] + bytes + (if end <= |data| then data[end..] else []);
      pos := end;
    }

    /** Cuts the file at the position. */
    method Truncate()
      requires Valid()
      modifies this`data
      ensures Valid() && data == old(data)[..pos]
    {
      data := data[..pos];
    }
  }
}
