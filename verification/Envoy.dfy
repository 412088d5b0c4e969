/** The readable part of a request body: the slices Envoy has buffered, then the slices it is
    delivering in the current callback. */
module Envoy {
  import opened Basics

  class RequestBody {
    var buffered: seq<Bytes>
    var received: seq<Bytes>

    ghost function Readable(): Bytes
      reads this
    {
      Concat(buffered) + Concat(received)
    }

    constructor ()
      ensures buffered == [] && received == []
    {
      buffered, received := [], [];
    }

    method DrainBuffered(n: nat)
      requires n <= |Concat(buffered)|
      modifies this`buffered
      ensures Concat(buffered) == old(Concat(buffered))[n..]
    {
      var rest := Concat(buffered)[n..];
      buffered := [rest];
      ConcatPush([], rest);
      assert [] + [rest] == [rest];
    }

    method DrainReceived(n: nat)
      requires n <= |Concat(received)|
      modifies this`received
      ensures Concat(received) == old(Concat(received))[n..]
    {
      var rest := Concat(received)[n..];
      received := [rest];
      ConcatPush([], rest);
      assert [] + [rest] == [rest];
    }

    method HasRequestBody() returns (r: bool)
      ensures r <==> Readable() != []
    {
      r := HasNonemptyBuffer(buffered);
      if !r {
        r := HasNonemptyBuffer(received);
      }
    }

    /** Reads and drains everything readable. A single slice is taken as it is; the result does
        not depend on which path was taken. */
    method ReadRequestBody() returns (body: Bytes)
      modifies this
      ensures body == old(Readable()) && Readable() == []
    {
      if |buffered| == 0 && |received| == 0 {
        body := [];
      } else if |buffered| == 1 && |received| == 0 {
        body := buffered[0];
        assert buffered[1..] == [];
        DrainBuffered(|body|);
      } else if |buffered| == 0 && |received| == 1 {
        body := received[0];
        assert received[1..] == [];
        DrainReceived(|body|);
      } else {
        var read;
        body, read := ExtendFromBuffers(buffered, []);
        if read > 0 {
          DrainBuffered(read);
        }
        body, read := ExtendFromBuffers(received, body);
        if read > 0 {
          DrainReceived(read);
        }
      }
    }
  }

  method HasNonemptyBuffer(chunks: seq<Bytes>) returns (r: bool)
    ensures r <==> Concat(chunks) != []
  {
    for k := 0 to |chunks|
      invariant Concat(chunks[..k]) == []
    {
      ConcatNext(chunks, k);
      if chunks[k] != [] {
        return true;
      }
    }
    assert chunks[..|chunks|] == chunks;
    r := false;
  }

  method ExtendFromBuffers(chunks: seq<Bytes>, vec: Bytes) returns (extended: Bytes, read: nat)
    ensures extended == vec + Concat(chunks) && read == |Concat(chunks)|
  {
    extended, read := vec, 0;
    for k := 0 to |chunks|
      invariant extended == vec + Concat(chunks[..k]) && read == |Concat(chunks[..k])|
    {
      ConcatNext(chunks, k);
      extended := extended + chunks[k];
      read := read + |chunks[k]|;
    }
    assert chunks[..|chunks|] == chunks;
  }
}
