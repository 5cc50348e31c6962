/** What a connection writes (`http.rs`): an answer in writes that each take a part, and
    lines as chunks, which a reader of section 7.1 of RFC 9112 gets back. */
module HttpWriting {
  import opened Hex
  import opened HttpFraming
  import opened Wrappers

  const NEWLINE: seq<Byte> := [CR, LF]

  // ---------------------------------------------------------------- partial writes

  function Flattened(slices: seq<seq<Byte>>): seq<Byte> {
    if slices == [] then [] else slices[0] + Flattened(slices[1..])
  }

  /** `IoSlice::advance_slices`: what is left after the first `n` bytes. */
  function Advanced(slices: seq<seq<Byte>>, n: nat): seq<seq<Byte>> {
    if slices == [] then []
    else if n >= |slices[0]| then Advanced(slices[1..], n - |slices[0]|)
    else [slices[0][n..]] + slices[1..]
  }

  lemma {:induction false} AdvancedLeaves(slices: seq<seq<Byte>>, n: nat)
    requires n <= |Flattened(slices)|
    ensures Flattened(Advanced(slices, n)) == Flattened(slices)[n..]
    ensures n == |Flattened(slices)| ==> Advanced(slices, n) == []
    decreases |slices|
  {
    if slices != [] {
      var (first, more) := (slices[0], Flattened(slices[1..]));
      if n >= |first| {
        AdvancedLeaves(slices[1..], n - |first|);
        assert (first + more)[n..] == more[n - |first|..];
      } else {
        assert ([first[n..]] + slices[1..])[1..] == slices[1..];
        assert (first + more)[n..] == first[n..] + more;
      }
    }
  }

  /** `write_both`, where write `i` takes at most `takes[i]` bytes and fails past the last.
      What was written is always the answer's beginning, and all of it on success; writes
      that each take something succeed in the end. */
  method WriteBoth(head: seq<Byte>, body: seq<Byte>, takes: seq<nat>) returns (ok: bool, written: seq<Byte>)
    requires head != []
    ensures written <= head + body
    ensures ok ==> written == head + body
    ensures |takes| >= |head + body| && (forall i :: 0 <= i < |takes| ==> takes[i] > 0) ==> ok
  {
    var rest := [head, body];
    written := [];
    var i := 0;
    assert Flattened(rest) == head + body by {
      assert rest[1..] == [body];
      assert Flattened([body]) == body + [];
    }
    while rest != []
      invariant i <= |takes|
      invariant written + Flattened(rest) == head + body
      invariant rest != [] ==> Flattened(rest) != []
      invariant (forall k :: 0 <= k < |takes| ==> takes[k] > 0) ==> |written| >= i
      decreases |takes| - i
    {
      if i == |takes| || takes[i] == 0 {
        return false, written;
      }
      var all := Flattened(rest);
      var n := Min(takes[i], |all|);
      AdvancedLeaves(rest, n);
      written := written + all[..n];
      rest := Advanced(rest, n);
      i := i + 1;
    }
    ok := true;
  }

  // ---------------------------------------------------------------- chunks

  function DigitByte(n: nat): Byte
    requires n < 16
  {
    HexDigit(n) as nat
  }

  function SizeText(n: nat): seq<Byte> {
    if n < 16 then [DigitByte(n)] else SizeText(n / 16) + [DigitByte(n % 16)]
  }

  /** `Chunks::line`: a line and its end as one chunk. */
  function Chunk(line: seq<Byte>): seq<Byte> {
    SizeText(|line| + 1) + NEWLINE + (line + [LF]) + NEWLINE
  }

  /** `write_stream`'s body: its lines, then the last chunk. */
  function Chunked(lines: seq<seq<Byte>>): seq<Byte> {
    if lines == [] then [48] + BREAK else Chunk(lines[0]) + Chunked(lines[1..])
  }

  function Content(lines: seq<seq<Byte>>): seq<Byte> {
    if lines == [] then [] else lines[0] + [LF] + Content(lines[1..])
  }

  function DigitAt(s: seq<Byte>): Option<nat>
    requires s != []
  {
    HexValue(s[0] as char)
  }

  /** A chunk's size from `value` on, and what follows its line. */
  function Size(s: seq<Byte>, value: nat): Option<(nat, seq<Byte>)> {
    if s == [] then None
    else if DigitAt(s).Some? then Size(s[1..], 16 * value + DigitAt(s).value)
    else if |s| >= 2 && s[..2] == NEWLINE then Some((value, s[2..]))
    else None
  }

  lemma SizeShorter(s: seq<Byte>, value: nat)
    ensures Size(s, value).Some? ==> |Size(s, value).value.1| < |s|
  {}

  /** A chunked body, without extensions and trailers, and what follows it. */
  function Dechunked(s: seq<Byte>): Option<(seq<Byte>, seq<Byte>)>
    decreases |s|
  {
    SizeShorter(s, 0);
    if s == [] || DigitAt(s) == None then None
    else
      match Size(s, 0)
      case None => None
      case Some((n, after)) =>
        if |after| < n + 2 || after[n..n + 2] != NEWLINE then None
        else if n == 0 then Some(([], after[2..]))
        else
          match Dechunked(after[n + 2..])
          case None => None
          case Some((more, rest)) => Some((after[..n] + more, rest))
  }

  lemma DigitReads(n: nat, rest: seq<Byte>)
    requires n < 16
    ensures DigitAt([DigitByte(n)] + rest) == Some(n)
  {
    HexDigitPlain(n);
  }

  lemma {:induction false} HexReads(n: nat, rest: seq<Byte>)
    ensures Size(SizeText(n) + rest, 0) == Size(rest, n)
    ensures SizeText(n) != [] && DigitAt(SizeText(n)).Some?
    decreases n
  {
    if n < 16 {
      DigitReads(n, rest);
      assert (SizeText(n) + rest)[0] == DigitByte(n) && (SizeText(n) + rest)[1..] == rest;
    } else {
      DigitReads(n % 16, rest);
      var digit := [DigitByte(n % 16)];
      HexReads(n / 16, digit + rest);
      assert SizeText(n) + rest == SizeText(n / 16) + (digit + rest);
      assert (digit + rest)[0] == DigitByte(n % 16) && (digit + rest)[1..] == rest;
      assert Size(digit + rest, n / 16) == Size(rest, 16 * (n / 16) + n % 16);
    }
  }

  lemma SizeOfChunk(n: nat, rest: seq<Byte>)
    ensures Size(SizeText(n) + NEWLINE + rest, 0) == Some((n, rest))
  {
    hide SizeText;
    HexReads(n, NEWLINE + rest);
    assert SizeText(n) + NEWLINE + rest == SizeText(n) + (NEWLINE + rest);
    assert (NEWLINE + rest)[..2] == NEWLINE && (NEWLINE + rest)[2..] == rest;
  }

  /** The reader of chunks gets the lines back, an empty line too, and stops where the body
      ends. */
  lemma {:induction false} ChunksRead(lines: seq<seq<Byte>>, rest: seq<Byte>)
    ensures Dechunked(Chunked(lines) + rest) == Some((Content(lines), rest))
    decreases |lines|
  {
    hide SizeText, Size;
    if lines == [] {
      var s := Chunked(lines) + rest;
      assert SizeText(0) == [48] by { LastSize(); }
      assert s == SizeText(0) + NEWLINE + (NEWLINE + rest);
      SizeOfChunk(0, NEWLINE + rest);
      assert (NEWLINE + rest)[0..2] == NEWLINE && (NEWLINE + rest)[2..] == rest;
    } else {
      var (data, more) := (lines[0] + [LF], Chunked(lines[1..]) + rest);
      var n := |data|;
      var after := data + NEWLINE + more;
      var s := SizeText(n) + NEWLINE + after;
      assert Chunked(lines) + rest == s;
      SizeOfChunk(n, after);
      HexReads(n, NEWLINE + after);
      assert s[0] == SizeText(n)[0];
      assert after[n..n + 2] == NEWLINE && after[n + 2..] == more && after[..n] == data;
      ChunksRead(lines[1..], rest);
    }
  }

  lemma LastSize()
    ensures SizeText(0) == [48]
  {}
}
