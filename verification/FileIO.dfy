/** The two kinds of open binary file the codec uses: a read cursor and an append-only output. */
module FileIO {
  import opened Bytes

  class InFile {
    const data: bytes
    var pos: nat

    ghost predicate Valid()
      reads this
    {
      pos <= |data|
    }

    ghost function Rest(): bytes
      reads this
      requires Valid()
    {
      data[pos..]
    }

    constructor (data: bytes)
      ensures Valid() && this.data == data && pos == 0 && Rest() == data
    {
      this.data := data;
      this.pos := 0;
    }

    /** Reads `n` bytes, or all that is left when there are fewer. */
    method Read(n: nat) returns (chunk: bytes)
      requires Valid()
      modifies this
      ensures Valid()
      ensures chunk == if n <= |old(Rest())| then old(Rest())[..n] else old(Rest())
      ensures Rest() == old(Rest())[|chunk|..] && pos == old(pos) + |chunk|
    {
      var end := if pos + n <= |data| then pos + n else |data|;
      chunk := data[pos..end];
      assert data[pos..][|chunk|..] == data[end..];
      pos := end;
    }
  }

  class OutFile {
    var data: bytes

    constructor ()
      ensures data == []
    {
      data := [];
    }

    method Write(b: bytes)
      modifies this
      ensures data == old(data) + b
    {
      data := data + b;
    }
  }
}
