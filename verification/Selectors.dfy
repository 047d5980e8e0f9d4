/** The length-framed selector blob stored in `raw_records.selectors`. */
module Selectors {
  import opened Model

  /** One frame: the length byte, truncated to eight bits, then the bytes themselves. */
  function Frame(selector: Hash): (blob: seq<Byte>) {
    [(|selector| % 256) as Byte] + selector
  }

  function Framed(selectors: seq<Hash>): (blob: seq<Byte>) {
    if selectors == [] then [] else Frame(selectors[0]) + Framed(selectors[1..])
  }

  /** Reads frames off the front; a frame that runs past the end drops the rest of the blob. */
  function Unframed(blob: seq<Byte>): (selectors: seq<Hash>) {
    if blob == [] then []
    else
      var len := blob[0] as int;
      if 1 + len > |blob| then []
      else [blob[1..1 + len]] + Unframed(blob[1 + len..])
  }

  /** The blob is a whole number of frames. */
  predicate WholeFrames(blob: seq<Byte>) {
    blob == [] ||
    (1 + blob[0] as int <= |blob| && WholeFrames(blob[1 + blob[0] as int..]))
  }

  predicate Framable(selectors: seq<Hash>) {
    forall i :: 0 <= i < |selectors| ==> |selectors[i]| <= 255
  }

  lemma {:induction false} FramedAppend(a: seq<Hash>, s: Hash)
    ensures Framed(a + [s]) == Framed(a) + Frame(s)
  {
    if a == [] {
      assert [s][1..] == [];
      assert Framed([s]) == Frame(s) + [];
    } else {
      assert (a + [s])[1..] == a[1..] + [s];
      FramedAppend(a[1..], s);
      assert Framed(a + [s]) == Frame(a[0]) + (Framed(a[1..]) + Frame(s));
    }
  }

  /** The stored bytes: frame after frame with nothing in between, each the low byte of its selector's
      length and then the selector. */
  lemma FramedBytes(selectors: seq<Hash>, i: nat)
    requires i < |selectors|
    ensures Framed(selectors[..0]) == []
    ensures Framed(selectors[..i + 1]) == Framed(selectors[..i]) + [(|selectors[i]| % 256) as Byte] + selectors[i]
  {
    FramedAppend(selectors[..i], selectors[i]);
    assert selectors[..i + 1] == selectors[..i] + [selectors[i]];
  }

  method FrameSelectors(selectors: seq<Hash>) returns (out: seq<Byte>)
    ensures out == Framed(selectors)
  {
    out := [];
    for i := 0 to |selectors|
      invariant out == Framed(selectors[..i])
    {
      FramedAppend(selectors[..i], selectors[i]);
      assert selectors[..i + 1] == selectors[..i] + [selectors[i]];
      out := out + [(|selectors[i]| % 256) as Byte];
      out := out + selectors[i];
      assert out == Framed(selectors[..i]) + Frame(selectors[i]);
    }
    assert selectors[..|selectors|] == selectors;
  }

  lemma FrameAt(blob: seq<Byte>, i: nat)
    requires i < |blob|
    ensures var end := i + 1 + blob[i] as int;
            Unframed(blob[i..]) == if end > |blob| then [] else [blob[i + 1..end]] + Unframed(blob[end..])
  {
    var tail, len := blob[i..], blob[i] as int;
    assert tail[0] == blob[i];
    if 1 + len <= |tail| {
      assert tail[1..1 + len] == blob[i + 1..i + 1 + len];
      assert tail[1 + len..] == blob[i + 1 + len..];
    }
  }

  lemma FrameOff(out: seq<Hash>, blob: seq<Byte>, i: nat)
    requires i < |blob|
    ensures var end := i + 1 + blob[i] as int;
            out + Unframed(blob[i..]) == if end > |blob| then out else (out + [blob[i + 1..end]]) + Unframed(blob[end..])
  {
    FrameAt(blob, i);
  }

  /** The release build: a truncated final frame ends the loop (a debug build aborts there). */
  method UnframeSelectors(blob: seq<Byte>) returns (out: seq<Hash>)
    ensures out == Unframed(blob)
  {
    out := [];
    var i := 0;
    while i < |blob|
      invariant 0 <= i <= |blob|
      invariant out + Unframed(blob[i..]) == Unframed(blob)
    {
      FrameOff(out, blob, i);
      var len := blob[i] as int;
      i := i + 1;
      if i + len > |blob| {
        return;
      }
      out := out + [blob[i..i + len]];
      i := i + len;
    }
  }

  lemma FrameReadsBack(s: Hash, blob: seq<Byte>)
    requires |s| <= 255
    ensures Unframed(Frame(s) + blob) == [s] + Unframed(blob)
  {
  }

  /** A selector too long for its length byte comes back cut short, if anything comes back. */
  lemma LongFrameIsCut(s: Hash, blob: seq<Byte>)
    requires |s| > 255
    ensures Unframed(Frame(s) + blob) == [] || |Unframed(Frame(s) + blob)[0]| < |s|
  {
  }

  /** Decoding a framed list gives the list back exactly when no selector is longer than the
      255 bytes the length byte can hold. */
  lemma {:induction false} RoundTrip(selectors: seq<Hash>)
    ensures Unframed(Framed(selectors)) == selectors <==> Framable(selectors)
  {
    if selectors == [] {
    } else {
      var s, rest := selectors[0], selectors[1..];
      RoundTrip(rest);
      assert selectors == [s] + rest;
      assert Framable(selectors) <==> |s| <= 255 && Framable(rest);
      if |s| <= 255 {
        FrameReadsBack(s, Framed(rest));
        assert ([s] + Unframed(Framed(rest)))[1..] == Unframed(Framed(rest));
      } else {
        LongFrameIsCut(s, Framed(rest));
      }
    }
  }

  /** A whole first frame is taken off by decoding and put back by framing. */
  lemma FirstFrame(blob: seq<Byte>)
    requires blob != [] && 1 + blob[0] as int <= |blob|
    ensures var len := blob[0] as int;
            var s, rest := blob[1..1 + len], blob[1 + len..];
            && Unframed(blob) == [s] + Unframed(rest)
            && Frame(s) == blob[..1 + len]
            && Framed(Unframed(blob)) == Frame(s) + Framed(Unframed(rest))
  {
  }

  /** Re-framing a decoded blob gives a prefix of it: the whole blob exactly when it is a
      whole number of frames, so only a truncated tail is ever lost. */
  lemma {:induction false} ReframePrefix(blob: seq<Byte>)
    ensures Framed(Unframed(blob)) <= blob
    ensures Framed(Unframed(blob)) == blob <==> WholeFrames(blob)
    ensures WholeFrames(Framed(Unframed(blob)))
    ensures Framable(Unframed(blob))
  {
    if blob == [] {
    } else {
      var len := blob[0] as int;
      if 1 + len <= |blob| {
        var s, rest := blob[1..1 + len], blob[1 + len..];
        ReframePrefix(rest);
        FirstFrame(blob);
        assert blob == blob[..1 + len] + rest;
        var again := Framed(Unframed(blob));
        assert again[1 + len..] == Framed(Unframed(rest));
        assert again[1..1 + len] == s;
      }
    }
  }
}
