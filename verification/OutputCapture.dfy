/** Capturing a command's output, truncated at the protocol's limit. */
module OutputCapture {

  type Byte = bv8

  const MAX_RESULT_OUTPUT_BYTES: nat := 64 * 1024

  /** The bytes that successive reads deliver; a read of zero bytes is the end of the stream. */
  function Stream(chunks: seq<seq<Byte>>): seq<Byte> {
    if chunks == [] || chunks[0] == [] then [] else chunks[0] + Stream(chunks[1..])
  }

  lemma {:induction false} StreamUpTo(chunks: seq<seq<Byte>>, i: nat)
    requires i < |chunks| && forall j | 0 <= j < i :: chunks[j] != []
    ensures Stream(chunks) == Stream(chunks[..i]) + Stream(chunks[i..])
  {
    if i > 0 {
      StreamUpTo(chunks[1..], i - 1);
      assert chunks[..i][1..] == chunks[1..][..i - 1];
      assert chunks[i..] == chunks[1..][i - 1..];
    }
  }

  lemma StreamGrows(chunks: seq<seq<Byte>>, i: nat)
    requires i < |chunks| && forall j | 0 <= j <= i :: chunks[j] != []
    ensures Stream(chunks[..i + 1]) == Stream(chunks[..i]) + chunks[i]
  {
    StreamUpTo(chunks[..i + 1], i);
    assert chunks[..i + 1][..i] == chunks[..i] && chunks[..i + 1][i..] == [chunks[i]];
    assert Stream([chunks[i]]) == chunks[i] + Stream([]);
  }

  /** The longest prefix within the limit. */
  function Prefix(bytes: seq<Byte>): (kept: seq<Byte>)
    ensures kept <= bytes && |kept| == if |bytes| <= 65536 then |bytes| else 65536
  {
    if |bytes| <= MAX_RESULT_OUTPUT_BYTES then bytes else bytes[..MAX_RESULT_OUTPUT_BYTES]
  }

  /** `read_output`: however the stream is split into reads, its first 64 KiB are kept and the flag
      says whether there was more. */
  method ReadOutput(chunks: seq<seq<Byte>>) returns (output: seq<Byte>, truncated: bool)
    ensures output <= Stream(chunks)
    ensures |output| == if |Stream(chunks)| <= 65536 then |Stream(chunks)| else 65536
    ensures truncated <==> |Stream(chunks)| > 65536
  {
    output, truncated := [], false;
    var i := 0;
    while i < |chunks|
      invariant 0 <= i <= |chunks| && forall j | 0 <= j < i :: chunks[j] != []
      invariant output == Prefix(Stream(chunks[..i]))
      invariant truncated <==> |Stream(chunks[..i])| > MAX_RESULT_OUTPUT_BYTES
    {
      var buffer := chunks[i];
      if buffer == [] {
        StreamUpTo(chunks, i);
        return;
      }
      StreamGrows(chunks, i);
      if |output| < MAX_RESULT_OUTPUT_BYTES {
        var remaining := MAX_RESULT_OUTPUT_BYTES - |output|;
        var toCopy := if remaining < |buffer| then remaining else |buffer|;
        output := output + buffer[..toCopy];
        if toCopy < |buffer| { truncated := true; }
      } else {
        truncated := true;
      }
      i := i + 1;
    }
    assert chunks[..i] == chunks;
  }
}
