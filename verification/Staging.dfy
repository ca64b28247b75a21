/**
  Copying a pinned executable into the broker's private directory, checking the copy again before
  launch, and collecting a child's output, all from sources that may change as they are read.
*/
module Staging {
  import opened Basics
  import Hex

  const MAX_IMAGE := 512 * 1024 * 1024

  /** One turn of a copy loop: some octets, and whether writing them succeeded; or a read error. */
  datatype Turn = Chunk(bytes: Str, written: bool) | ReadError

  /** Everything the reads yield before the first error; the list ends where a read yields nothing. */
  function Whole(turns: seq<Turn>): Str {
    if turns == [] || turns[0].ReadError? then [] else turns[0].bytes + Whole(turns[1..])
  }

  predicate Clean(turns: seq<Turn>) {
    forall k :: 0 <= k < |turns| ==> turns[k].Chunk? && turns[k].written
  }

  lemma {:induction false} WholePrefix(turns: seq<Turn>, i: nat)
    requires i < |turns| && forall k :: 0 <= k <= i ==> turns[k].Chunk?
    ensures Whole(turns[..i + 1]) == Whole(turns[..i]) + turns[i].bytes
  {
    if i > 0 {
      WholePrefix(turns[1..], i - 1);
      assert turns[..i + 1][1..] == turns[1..][..i] && turns[..i][1..] == turns[1..][..i - 1];
      assert turns[1..][..i - 1 + 1] == turns[1..][..i];
    } else {
      assert turns[..1] == [turns[0]] && turns[..0] == [];
      assert Whole([turns[0]]) == turns[0].bytes + Whole([]);
    }
  }

  lemma {:induction false} WholeGrows(turns: seq<Turn>, i: nat)
    requires i <= |turns| && forall k :: 0 <= k < i ==> turns[k].Chunk?
    ensures Whole(turns[..i]) <= Whole(turns)
  {
    if i > 0 {
      WholeGrows(turns[1..], i - 1);
      assert turns[..i][1..] == turns[1..][..i - 1];
    }
  }

  /** The length and digest a request pins, and the digest function. */
  datatype Pin = Pin(size: u64, sha256: Str, digest: Str -> Str)

  predicate Matches(pin: Pin, bytes: Str) {
    |bytes| == pin.size && Hex.Encode(pin.digest(bytes)) == pin.sha256
  }

  /**
    `available`: the request has no working directory and an absolute path, and both the source and a
    new private file could be opened. `sizeBefore`, `sizeAfter` and `sameFile` are what the source's
    metadata say around the copy.
  */
  datatype Source = Source(available: bool, regular: bool, sizeBefore: u64, turns: seq<Turn>, synced: bool,
      sizeAfter: u64, sameFile: bool, custody: bool)

  /**
    Stage an executable: the digest and the staged file are fed chunk by chunk. On success the staged
    octets are exactly what was read and have the pinned length and digest; otherwise nothing is left.
  */
  method Stage(pin: Pin, source: Source) returns (staged: Option<Str>)
    ensures staged.Some? ==>
      Matches(pin, staged.value) && |staged.value| <= MAX_IMAGE && staged.value == Whole(source.turns)
    ensures staged.Some? <==>
      && source.available && source.regular && source.sizeBefore == pin.size && source.sizeBefore <= MAX_IMAGE
      && Clean(source.turns) && source.synced && source.sameFile && source.sizeAfter == source.sizeBefore &&
          source.custody
      && Matches(pin, Whole(source.turns))
  {
    if !source.available || !source.regular || source.sizeBefore != pin.size ||
        source.sizeBefore > MAX_IMAGE { return None; }
    var hashed: Str := [];
    var output: Str := [];
    var total := 0;
    var i := 0;
    while i < |source.turns|
      invariant 0 <= i <= |source.turns| && Clean(source.turns[..i])
      invariant hashed == output == Whole(source.turns[..i])
      invariant total == |output| <= MAX_IMAGE
    {
      var turn := source.turns[i];
      assert turn.ReadError? ==> !Clean(source.turns);
      if turn.ReadError? { return None; }
      assert forall k :: 0 <= k < i ==> source.turns[..i][k].Chunk?;
      assert forall k :: 0 <= k <= i ==> source.turns[k].Chunk?;
      WholePrefix(source.turns, i);
      WholeGrows(source.turns, i + 1);
      total := total + |turn.bytes|;
      if total > MAX_IMAGE { return None; }
      hashed := hashed + turn.bytes;
      if !turn.written { return None; }
      output := output + turn.bytes;
      assert source.turns[..i + 1] == source.turns[..i] + [turn];
      i := i + 1;
    }
    assert source.turns[..i] == source.turns;
    if !source.synced || !source.sameFile || source.sizeAfter != source.sizeBefore || total != pin.size
       || Hex.Encode(pin.digest(hashed)) != pin.sha256
    { return None; }
    if !source.custody { return None; }
    return Some(output);
  }

  predicate AllRead(turns: seq<Turn>) {
    forall k :: 0 <= k < |turns| ==> turns[k].Chunk?
  }

  /** Read the retained stage again: it passes exactly when what is read has the pinned length and digest. */
  method Recheck(pin: Pin, regular: bool, size: u64, turns: seq<Turn>) returns (ok: bool)
    ensures ok <==> regular && size == pin.size && pin.size <= MAX_IMAGE && AllRead(turns) && Matches(pin, Whole(turns))
  {
    if !regular || size != pin.size || pin.size > MAX_IMAGE { return false; }
    var hashed: Str := [];
    var total := 0;
    var i := 0;
    while i < |turns|
      invariant 0 <= i <= |turns| && forall k :: 0 <= k < i ==> turns[k].Chunk?
      invariant hashed == Whole(turns[..i]) && total == |hashed| <= MAX_IMAGE
    {
      if turns[i].ReadError? { return false; }
      WholePrefix(turns, i);
      WholeGrows(turns, i + 1);
      total := total + |turns[i].bytes|;
      if total > MAX_IMAGE { return false; }
      hashed := hashed + turns[i].bytes;
      i := i + 1;
    }
    assert turns[..i] == turns;
    ok := total == pin.size && Hex.Encode(pin.digest(hashed)) == pin.sha256;
  }

  /** The handle's position is shared, so only a recheck that starts at the front can pass. */
  lemma RecheckReadsFromStart(pin: Pin, content: Str, offset: nat, turns: seq<Turn>)
    requires offset <= |content| && |content| == pin.size && Whole(turns) == content[offset..]
    ensures Matches(pin, Whole(turns)) <==> Matches(pin, content) && (offset == 0 || content == [])
  {
    if offset == 0 || content == [] {
      assert content[offset..] == content;
    }
  }

  /** No two of these octet strings share a digest. */
  predicate Distinguishes(pin: Pin, a: Str, b: Str) {
    pin.digest(a) == pin.digest(b) ==> a == b
  }

  /** What passes the recheck is what was staged, and is the image the pin was taken from. */
  lemma LaunchesThePinnedImage(pin: Pin, staged: Str, content: Str, image: Str)
    requires Matches(pin, staged) && Matches(pin, content) && Matches(pin, image)
    requires Distinguishes(pin, staged, content) && Distinguishes(pin, image, content)
    ensures content == staged && content == image
  {
    Hex.DecodeEncode(pin.digest(staged));
    Hex.DecodeEncode(pin.digest(content));
    Hex.DecodeEncode(pin.digest(image));
  }

  /** Collect a pipe up to `maximum` octets: a prefix of the output, flagged exactly when it is not all of it. */
  method Drain(turns: seq<Turn>, maximum: nat) returns (bytes: Str, truncated: bool)
    ensures bytes == Whole(turns)[..Min(maximum, |Whole(turns)|)]
    ensures truncated <==> |Whole(turns)| > maximum || exists k :: 0 <= k < |turns| && turns[k].ReadError?
  {
    bytes, truncated := [], false;
    var i := 0;
    while i < |turns|
      invariant 0 <= i <= |turns| && forall k :: 0 <= k < i ==> turns[k].Chunk?
      invariant bytes == Whole(turns[..i]) && |bytes| <= maximum && !truncated
    {
      if turns[i].ReadError? {
        WholeStops(turns, i);
        truncated := true;
        return;
      }
      WholePrefix(turns, i);
      WholeGrows(turns, i + 1);
      var room := maximum - |bytes|;
      var kept := Min(room, |turns[i].bytes|);
      bytes := bytes + turns[i].bytes[..kept];
      if kept != |turns[i].bytes| {
        truncated := true;
        return;
      }
      i := i + 1;
    }
    assert turns[..i] == turns;
  }

  lemma {:induction false} WholeStops(turns: seq<Turn>, i: nat)
    requires i < |turns| && turns[i].ReadError? && forall k :: 0 <= k < i ==> turns[k].Chunk?
    ensures Whole(turns) == Whole(turns[..i])
  {
    if i > 0 {
      WholeStops(turns[1..], i - 1);
      assert turns[..i][1..] == turns[1..][..i - 1];
    }
  }
}
