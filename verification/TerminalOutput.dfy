/** The bounded output buffer of an ACP client terminal. */
module TerminalOutput {
  import opened Wrappers
  import opened Utf8

  /** The first character boundary of `s` at or after `start`. */
  function BoundaryFrom(s: bytes, start: nat): (i: nat)
    requires start <= |s|
    ensures start <= i <= |s| && CharBoundary(s, i)
    ensures forall k | start <= k < i :: !CharBoundary(s, k)
    decreases |s| - start
  {
    if CharBoundary(s, start) then start else BoundaryFrom(s, start + 1)
  }

  function Exceeds(s: bytes, limit: Option<nat>): bool {
    limit.Some? && |s| > limit.value
  }

  /** What one truncation of `s` keeps. */
  function Kept(s: bytes, limit: Option<nat>): (t: bytes) {
    if Exceeds(s, limit) then s[BoundaryFrom(s, |s| - limit.value)..] else s
  }

  method TruncateTerminalOutput(output: bytes, limit: Option<nat>) returns (text: bytes, truncated: bool)
    ensures text == Kept(output, limit)
    ensures truncated == Exceeds(output, limit)
  {
    if limit.None? {
      return output, false;
    }
    if |output| <= limit.value {
      return output, false;
    }
    var start := |output| - limit.value;
    while start < |output| && !CharBoundary(output, start)
      invariant |output| - limit.value <= start <= |output|
      invariant forall k | |output| - limit.value <= k < start :: !CharBoundary(output, k)
    {
      start := start + 1;
    }
    assert BoundaryFrom(output, |output| - limit.value) == start;
    return output[start..], true;
  }

  /** Truncation keeps the longest suffix that is within the limit and is
      still well-formed text. */
  lemma KeptIsLongestTextSuffix(s: bytes, limit: Option<nat>, k: nat)
    requires IsText(s) && limit.Some? && k <= |s|
    ensures var t := Kept(s, limit);
            && IsText(t) && |t| <= limit.value && |t| <= |s| && t == s[|s| - |t|..]
            && (IsText(s[k..]) && |s[k..]| <= limit.value ==> |s[k..]| <= |t|)
  {
    BoundarySplitsText(s, k);
    if Exceeds(s, limit) {
      BoundarySplitsText(s, BoundaryFrom(s, |s| - limit.value));
    } else {
      assert s[0..] == s;
    }
  }

  /** Truncating after each chunk keeps what one truncation of the whole
      output keeps: the earlier cut never shows. */
  lemma KeptConcat(a: bytes, b: bytes, limit: Option<nat>)
    requires IsText(a) && IsText(b)
    ensures Kept(Kept(a, limit) + b, limit) == Kept(a + b, limit)
    ensures Exceeds(a, limit) || Exceeds(Kept(a, limit) + b, limit) <==> Exceeds(a + b, limit)
  {
    if Exceeds(a, limit) {
      PrefixBoundaries(a, b);
      RecutIsOneCut(a, b, limit.value, BoundaryFrom(a, |a| - limit.value));
    }
  }

  lemma RecutIsOneCut(a: bytes, b: bytes, limit: nat, cut: nat)
    requires |a| > limit && cut == BoundaryFrom(a, |a| - limit)
    requires forall k | 0 <= k <= |a| :: CharBoundary(a + b, k) == CharBoundary(a, k)
    ensures Kept(a[cut..] + b, Some(limit)) == Kept(a + b, Some(limit))
  {
    assert a[cut..] + b == (a + b)[cut..];
    if |a + b| - limit <= cut {
      assert BoundaryFrom(a + b, |a + b| - limit) == cut by {
        assert forall k | |a + b| - limit <= k < cut :: CharBoundary(a + b, k) == CharBoundary(a, k);
        BoundaryIs(a + b, |a + b| - limit, cut);
      }
    } else {
      SuffixKept(a + b, cut, limit);
    }
  }

  lemma SuffixKept(s: bytes, cut: nat, limit: nat)
    requires limit <= |s| && cut < |s| - limit
    ensures Kept(s[cut..], Some(limit)) == Kept(s, Some(limit))
  {
    SuffixBoundary(s, cut, |s| - limit);
    assert s[cut..][BoundaryFrom(s, |s| - limit) - cut..] == s[BoundaryFrom(s, |s| - limit)..];
  }

  lemma PrefixBoundaries(a: bytes, b: bytes)
    requires IsText(b)
    ensures forall k | 0 <= k <= |a| :: CharBoundary(a + b, k) == CharBoundary(a, k)
  {
    BoundarySplitsText(b, 0);
    assert b != [] ==> (a + b)[|a|] == b[0];
  }

  lemma BoundaryIs(s: bytes, start: nat, i: nat)
    requires start <= i <= |s| && CharBoundary(s, i)
    requires forall k | start <= k < i :: !CharBoundary(s, k)
    ensures BoundaryFrom(s, start) == i
  {
  }

  lemma SuffixBoundary(s: bytes, cut: nat, start: nat)
    requires cut < start <= |s|
    ensures BoundaryFrom(s[cut..], start - cut) == BoundaryFrom(s, start) - cut
  {
    var t, i := s[cut..], BoundaryFrom(s, start);
    assert forall k | start <= k <= i :: CharBoundary(t, k - cut) == CharBoundary(s, k);
    assert forall k | start - cut <= k < i - cut :: !CharBoundary(t, k) by {
      assert forall k | start - cut <= k < i - cut :: CharBoundary(t, k) == CharBoundary(s, k + cut);
    }
    BoundaryIs(t, start - cut, i - cut);
  }

  /** One message of an output channel. */
  datatype Chunk = Data(content: bytes) | ReadError(message: bytes)

  /** "\nstdout error: " and "\nstderr error: ". */
  const STDOUT_ERROR: bytes := [10, 115, 116, 100, 111, 117, 116, 32, 101, 114, 114, 111, 114, 58, 32]
  const STDERR_ERROR: bytes := [10, 115, 116, 100, 101, 114, 114, 32, 101, 114, 114, 111, 114, 58, 32]

  function ChunkText(chunk: Chunk, prefix: bytes): bytes {
    Lossy(if chunk.Data? then chunk.content else prefix + chunk.message)
  }

  /** The text of all chunks of one channel, in order. */
  function AllText(chunks: seq<Chunk>, prefix: bytes): bytes {
    if chunks == [] then []
    else AllText(chunks[..|chunks| - 1], prefix) + ChunkText(chunks[|chunks| - 1], prefix)
  }

  lemma AllTextStep(chunks: seq<Chunk>, prefix: bytes, before: bytes, i: nat)
    requires i < |chunks|
    ensures before + AllText(chunks[..i + 1], prefix) ==
            before + AllText(chunks[..i], prefix) + ChunkText(chunks[i], prefix)
  {
    assert chunks[..i + 1][..i] == chunks[..i];
  }

  /** The bytes the process wrote, before any decoding. */
  function Raw(chunks: seq<bytes>): bytes {
    if chunks == [] then [] else chunks[0] + Raw(chunks[1..])
  }

  function Decoded(chunks: seq<bytes>): bytes {
    if chunks == [] then [] else Lossy(chunks[0]) + Decoded(chunks[1..])
  }

  /** Decoding chunk by chunk reproduces what the process wrote exactly when
      no chunk ends inside a character: a read that splits one corrupts it. */
  lemma {:induction false} ChunksSurviveDecoding(chunks: seq<bytes>)
    ensures |Decoded(chunks)| >= |Raw(chunks)|
    ensures Decoded(chunks) == Raw(chunks) <==> forall i | 0 <= i < |chunks| :: IsText(chunks[i])
  {
    if chunks != [] {
      var first, rest := chunks[0], chunks[1..];
      LossyIsText(first);
      ChunksSurviveDecoding(rest);
      if Decoded(chunks) == Raw(chunks) {
        assert |Lossy(first)| == |first|;
        assert Lossy(first) == Decoded(chunks)[..|first|] == first;
        assert Decoded(rest) == Decoded(chunks)[|first|..] == Raw(rest);
        assert forall i | 0 < i < |chunks| :: chunks[i] == rest[i - 1];
      }
      assert forall i | 0 <= i < |rest| :: rest[i] == chunks[i + 1];
    }
  }

  /** The two bytes of U+00E9, read one at a time, decode to two replacement
      characters. */
  lemma SplitCharacterIsCorrupted()
    ensures Raw([[0xC3], [0xA9]]) == [0xC3, 0xA9] && IsText([0xC3, 0xA9])
    ensures Decoded([[0xC3], [0xA9]]) != Raw([[0xC3], [0xA9]])
  {
    var chunks: seq<bytes> := [[0xC3], [0xA9]];
    assert chunks[1..] == [[0xA9]] && chunks[1..][1..] == [];
    assert !IsText(chunks[0]);
    ChunksSurviveDecoding(chunks);
  }

  class AcpTerminalRecord {
    var output: bytes
    const outputByteLimit: Option<nat>
    var truncated: bool

    /** Everything ever appended, as text. */
    ghost var written: bytes

    /** However the output arrived, the buffer is one truncation of all of it
        and the flag says whether that truncation dropped anything. */
    ghost predicate Valid()
      reads this
    {
      && IsText(written)
      && output == Kept(written, outputByteLimit)
      && truncated == Exceeds(written, outputByteLimit)
    }

    constructor (limit: Option<nat>)
      ensures Valid() && outputByteLimit == limit && written == []
    {
      output, outputByteLimit, truncated, written := [], limit, false, [];
    }

    method AppendOutput(content: bytes)
      requires Valid()
      modifies this
      ensures Valid()
      ensures written == old(written) + Lossy(content)
    {
      if content == [] {
        assert written + [] == written;
        return;
      }
      LossyIsText(content);
      KeptConcat(written, Lossy(content), outputByteLimit);
      TextConcat(written, Lossy(content));
      var text, cut := TruncateTerminalOutput(output + Lossy(content), outputByteLimit);
      written := written + Lossy(content);
      output := text;
      truncated := truncated || cut;
    }

    /** Empties both channels into the buffer, standard output first. */
    method DrainOutput(stdout: seq<Chunk>, stderr: seq<Chunk>)
      requires Valid()
      modifies this
      ensures Valid()
      ensures written == old(written) + AllText(stdout, STDOUT_ERROR) + AllText(stderr, STDERR_ERROR)
    {
      DrainChannel(stdout, STDOUT_ERROR);
      DrainChannel(stderr, STDERR_ERROR);
    }

    method DrainChannel(chunks: seq<Chunk>, prefix: bytes)
      requires Valid()
      modifies this
      ensures Valid()
      ensures written == old(written) + AllText(chunks, prefix)
    {
      hide Kept, Exceeds, IsText, Lossy;
      var i := 0;
      while i < |chunks|
        invariant 0 <= i <= |chunks|
        invariant Valid()
        invariant written == old(written) + AllText(chunks[..i], prefix)
      {
        match chunks[i] {
          case Data(content) => AppendOutput(content);
          case ReadError(message) => AppendOutput(prefix + message);
        }
        AllTextStep(chunks, prefix, old(written), i);
        i := i + 1;
      }
      assert chunks[..i] == chunks;
    }
  }
}
