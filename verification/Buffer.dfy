/** The growable, NUL-terminated byte buffer the span serializer appends to. */
module Buffer {
  import opened Seqs
  import opened Json

  class JsonBuffer {
    var data: array?<char>
    var len: nat
    var capacity: nat
    ghost var recopied: nat  // bytes moved by all reallocations so far

    ghost predicate Valid()
      reads this, data
    {
      && (data == null <==> capacity == 0)
      && (data == null ==> len == 0)
      && (data != null ==> data.Length == capacity && len < capacity && data[len] == '\0')
      && capacity <= Max(256, 2 * len)
      && recopied <= capacity
    }

    ghost function Contents(): string
      reads this, data
      requires Valid()
    {
      if data == null then "" else data[..len]
    }

    constructor ()
      ensures Valid() && Contents() == "" && data == null
    {
      data, len, capacity, recopied := null, 0, 0, 0;
    }

    /** Makes room for `newLen` bytes and the terminator, at least doubling. */
    method Grow(newLen: nat)
      requires Valid() && newLen >= capacity && newLen > len
      modifies this
      ensures data != null && fresh(data) && data.Length == capacity
      ensures capacity > newLen && capacity <= Max(256, 2 * newLen)
      ensures len == old(len) && data[..len] == old(Contents())
      ensures capacity >= 2 * old(capacity)
      ensures recopied == old(recopied) + old(capacity)
    {
      var newCapacity := if capacity != 0 then capacity * 2 else 256;
      if newCapacity < newLen + 1 {
        newCapacity := newLen + 1;
      }
      var newData := new char[newCapacity](_ => '\0');
      if data != null {
        forall i | 0 <= i < capacity {
          newData[i] := data[i];
        }
        assert newData[..len] == data[..len];
      }
      recopied := recopied + capacity;
      data, capacity := newData, newCapacity;
    }

    method Append(str: string)
      requires Valid()
      modifies this, data
      ensures Valid()
      ensures Contents() == old(Contents()) + str
      ensures data == old(data) || fresh(data)
      ensures capacity == old(capacity) || capacity >= 2 * old(capacity)
    {
      if |str| == 0 {
        return;
      }
      var newLen := len + |str|;
      if newLen >= capacity {
        Grow(newLen);
      }
      Write(data, len, str);
      len := newLen;
    }

    /** Copies `str` to position `at` and terminates it. */
    static method Write(dest: array<char>, at: nat, str: string)
      requires at + |str| < dest.Length
      modifies dest
      ensures dest[..at + |str|] == old(dest[..at]) + str
      ensures dest[at + |str|] == '\0'
    {
      ghost var before := dest[..at];
      forall i | 0 <= i < |str| {
        dest[at + i] := str[i];
      }
      dest[at + |str|] := '\0';
      assert dest[..at] == before && dest[at..at + |str|] == str;
      assert dest[..at + |str|] == dest[..at] + dest[at..at + |str|];
    }

    /** The malloc-side escaper. */
    method AppendEscaped(str: string)
      requires Valid()
      modifies this, data
      ensures Valid()
      ensures Contents() == old(Contents()) + Escape(str)
      ensures data == old(data) || fresh(data)
    {
      ghost var before := Contents();
      for i := 0 to |str|
        invariant Valid() && (data == old(data) || fresh(data))
        invariant Contents() + Escape(str[i..]) == before + Escape(str)
      {
        EscapeStep(Contents(), str, i);
        AppendEscapedChar(str[i]);
      }
    }

    /** One turn of the escaper's switch. */
    method AppendEscapedChar(c: char)
      requires Valid()
      modifies this, data
      ensures Valid()
      ensures Contents() == old(Contents()) + EscapeChar(c)
      ensures data == old(data) || fresh(data)
    {
      if c == '"' {
        Append("\\\"");
      } else if c == '\\' {
        Append("\\\\");
      } else if c == BS {
        Append("\\b");
      } else if c == FF {
        Append("\\f");
      } else if c == '\n' {
        Append("\\n");
      } else if c == '\r' {
        Append("\\r");
      } else if c == '\t' {
        Append("\\t");
      } else if c < ' ' {
        Append("\\u00" + [HexDigit(c as int / 16), HexDigit(c as int % 16)]);
      } else {
        Append([c]);
      }
    }
  }

  /** Appends a list of pieces one after another. */
  method AppendAll(buf: JsonBuffer, pieces: seq<string>)
    requires buf.Valid()
    modifies buf, buf.data
    ensures buf.Valid()
    ensures buf.Contents() == old(buf.Contents()) + Concat(pieces)
    ensures buf.recopied <= buf.capacity <= Max(256, 2 * |buf.Contents()|)
  {
    ghost var total := buf.Contents() + Concat(pieces);
    for i := 0 to |pieces|
      invariant buf.Valid() && (buf.data == old(buf.data) || fresh(buf.data))
      invariant buf.Contents() + Concat(pieces[i..]) == total
    {
      ConcatStep(buf.Contents(), pieces, i);
      buf.Append(pieces[i]);
    }
  }

  lemma ConcatStep(done: string, pieces: seq<string>, i: nat)
    requires i < |pieces|
    ensures done + Concat(pieces[i..]) == (done + pieces[i]) + Concat(pieces[i + 1..])
  {
    assert pieces[i..][1..] == pieces[i + 1..];
  }

  function Concat(pieces: seq<string>): string {
    if pieces == [] then "" else pieces[0] + Concat(pieces[1..])
  }
}
