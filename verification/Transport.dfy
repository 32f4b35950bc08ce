/** Transport messages: a header buffer, which may be missing, and any number of body chunks. */
module Transports {
  import opened Options
  import opened Statuses

  datatype Message = Message(header: Option<Bytes>, chunks: seq<Bytes>)

  function HeaderOf(m: Message): Bytes {
    if m.header.None? then "" else m.header.value
  }

  function Concat(chunks: seq<Bytes>): Bytes {
    if chunks == [] then "" else chunks[0] + Concat(chunks[1..])
  }

  function BodyOf(m: Message): Bytes {
    Concat(m.chunks)
  }

  /** A faithful transport delivers the same header and body; it may cut the body into other chunks. */
  predicate Delivers(sent: Message, received: Message) {
    HeaderOf(sent) == HeaderOf(received) && BodyOf(sent) == BodyOf(received)
  }

  lemma {:induction false} ConcatAppend(chunks: seq<Bytes>, chunk: Bytes)
    ensures Concat(chunks + [chunk]) == Concat(chunks) + chunk
  {
    if chunks == [] {
      assert [chunk][1..] == [];
    } else {
      assert (chunks + [chunk])[1..] == chunks[1..] + [chunk];
      ConcatAppend(chunks[1..], chunk);
    }
  }

  lemma ConcatOne(chunk: Bytes)
    ensures Concat([chunk]) == chunk
  {
    assert [chunk] == [] + [chunk];
    ConcatAppend([], chunk);
  }

  /** The v1 implementation of a message: one header string and one body string. */
  class FabricMessage {
    var header: Bytes
    var body: Bytes

    constructor ()
      ensures header == "" && body == ""
    {
      header, body := "", "";
    }

    method Initialize(header: Bytes, body: Bytes)
      modifies this
      ensures this.header == header && this.body == body
    {
      this.header := header;
      this.body := body;
    }

    static method GetBody(m: Message) returns (body: Bytes)
      ensures body == BodyOf(m)
    {
      body := "";
      for i := 0 to |m.chunks|
        invariant body == Concat(m.chunks[..i])
      {
        ConcatAppend(m.chunks[..i], m.chunks[i]);
        assert m.chunks[..i + 1] == m.chunks[..i] + [m.chunks[i]];
        body := body + m.chunks[i];
      }
      assert m.chunks[..|m.chunks|] == m.chunks;
    }

    /** Copying gathers the chunks, so the copy is one chunk and still the same message. */
    method CopyMsg(other: Message)
      modifies this
      ensures header == HeaderOf(other) && body == BodyOf(other)
      ensures Delivers(other, Message(Some(header), [body]))
    {
      var b := GetBody(other);
      Initialize(HeaderOf(other), b);
      ConcatOne(b);
    }
  }
}
