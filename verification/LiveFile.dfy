/** Reading a live file chunk by chunk (LiveFile.cpp). */
module LiveFiles {

  function Concat(parts: seq<string>): string {
    if parts == [] then "" else parts[0] + Concat(parts[1..])
  }

  /** The chunks of a file: all of full size but the last, which is not empty. */
  function Chunked(content: string, size: nat): seq<string>
    requires size > 0
    decreases |content|
  {
    if content == "" then []
    else if |content| <= size then [content]
    else [content[..size]] + Chunked(content[size..], size)
  }

  /** The loop `while (LF->ReadChunk (ChunkData))`: each read gives what is left, up to the chunk size; zero bytes end it. */
  method ReadChunks(content: string, size: nat) returns (chunks: seq<string>)
    requires size > 0
    ensures chunks == Chunked(content, size)
  {
    chunks := [];
    var pos := 0;
    assert content[0..] == content;
    while true
      invariant 0 <= pos <= |content|
      invariant chunks + Chunked(content[pos..], size) == Chunked(content, size)
      decreases |content| - pos
    {
      var left := |content| - pos;
      var bytesRead := if left < size then left else size;
      var chunk := content[pos..pos + bytesRead];
      if bytesRead == 0 {
        assert content[pos..] == "";
        return;
      }
      NextChunk(chunks, content[pos..], chunk, size);
      assert content[pos..][bytesRead..] == content[pos + bytesRead..];
      chunks := chunks + [chunk];
      pos := pos + bytesRead;
    }
  }

  lemma NextChunk(front: seq<string>, rest: string, chunk: string, size: nat)
    requires size > 0 && rest != ""
    requires |chunk| == (if |rest| < size then |rest| else size) && chunk == rest[..|chunk|]
    ensures front + Chunked(rest, size) == front + [chunk] + Chunked(rest[|chunk|..], size)
  {
    if |rest| <= size {
      assert chunk == rest && rest[|chunk|..] == "";
    }
  }

  /** The chunks put together are the file, and only an empty file has none. */
  lemma {:induction false} ConcatOfChunked(content: string, size: nat)
    requires size > 0
    ensures Concat(Chunked(content, size)) == content
    ensures content != "" <==> Chunked(content, size) != []
    decreases |content|
  {
    if |content| > size {
      ConcatOfChunked(content[size..], size);
      ConcatCons(content[..size], Chunked(content[size..], size));
      assert content == content[..size] + content[size..];
    } else if content != "" {
      ConcatCons(content, []);
      assert [content] + [] == [content] && content + "" == content;
    }
  }

  /** All chunks but the last have the full size, and none is empty. */
  lemma {:induction false} ChunkSizes(content: string, size: nat, k: nat)
    requires size > 0 && k < |Chunked(content, size)|
    ensures var c := Chunked(content, size); if k < |c| - 1 then |c[k]| == size else 0 < |c[k]| <= size
    decreases |content|
  {
    if |content| > size {
      ConcatOfChunked(content[size..], size);
      if k > 0 { ChunkSizes(content[size..], size, k - 1); }
    }
  }

  lemma ConcatCons(first: string, rest: seq<string>)
    ensures Concat([first] + rest) == first + Concat(rest)
  {
    assert ([first] + rest)[1..] == rest;
  }

  lemma {:induction false} ConcatSnoc(parts: seq<string>, last: string)
    ensures Concat(parts + [last]) == Concat(parts) + last
  {
    if parts == [] {
      assert parts + [last] == [last] && [last][1..] == [];
    } else {
      assert (parts + [last])[1..] == parts[1..] + [last];
      ConcatSnoc(parts[1..], last);
      assert parts[0] + (Concat(parts[1..]) + last) == (parts[0] + Concat(parts[1..])) + last;
    }
  }
}
