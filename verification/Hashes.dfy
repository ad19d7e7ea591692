/**
 The three hash functions as code: their block steps in the reference, in the
 CPU templates and in the device kernels, all against one descriptor.
 */
module Hashes {
  import opened Checksums
  import opened Algorithms
  import opened Words
  import opened Cells
  import Md5
  import Sha1
  import Sha512

  /** Which function, and its table of round constants. */
  datatype Code = Md5Code(t: seq<Word>) | Sha1Code(k: seq<Word>) | Sha512Code(k: seq<Word>)
  {
    /** This is the code of the algorithm described. */
    ghost predicate Computes(a: Algorithm)
      ensures Computes(a) ==> a.Valid()
    {
      match this
      case Md5Code(t) =>
        && |t| == Md5.STEPS && |a.iv| == 4 && (forall j :: 0 <= j < 4 ==> Fits(a.iv[j], 4))
        && (Md5.DescriptorValid(t, a.iv); a == Md5.Descriptor(t, a.iv))
      case Sha1Code(k) =>
        && |k| == 4 && |a.iv| == 5 && (forall j :: 0 <= j < 5 ==> Fits(a.iv[j], 4))
        && (Sha1.DescriptorValid(k, a.iv); a == Sha1.Descriptor(k, a.iv))
      case Sha512Code(k) =>
        && |k| == 80 && |a.iv| == 8
        && (Sha512.DescriptorValid(k, a.iv); a == Sha512.Descriptor(k, a.iv))
    }
  }

  /** The reference's compression function, on its state in place. */
  method ReferenceStep(x: Code, a: Algorithm, state: array<Word>, m: seq<Word>)
    requires x.Computes(a) && state.Length == a.digestWords && |m| == WORDS_PER_BLOCK
    modifies state
    ensures state[..] == a.compress(old(state[..]), m)
  {
    hide Algorithm.Valid, Algorithm.Laid, Md5.Compress, Sha1.Compress, Sha512.Compress, Fits;
    match x
    case Md5Code(t) => Md5.ReferenceCompress(t, state, m);
    case Sha1Code(k) => Sha1.ReferenceCompress(k, state, m);
    case Sha512Code(k) => Sha512.ReferenceCompress(k, state, m);
  }

  /** The window a kernel starts a block from: the words loaded, the feedback
      registers over the head of the first block. */
  method Splice(loaded: seq<Word>, fb: seq<Word>, b: nat) returns (w: array<Word>)
    requires |fb| <= |loaded|
    ensures fresh(w) && w[..] == BlockOf(fb, loaded, b)
  {
    w := new Word[|loaded|];
    for j := 0 to |loaded|
      invariant forall i :: 0 <= i < j ==> w[i] == loaded[i]
    {
      w[j] := loaded[j];
    }
    if b == 0 {
      for j := 0 to |fb|
        invariant forall i :: 0 <= i < |loaded| ==> w[i] == if i < j then fb[i] else loaded[i]
      {
        w[j] := fb[j];
      }
    }
    assert forall i :: 0 <= i < |loaded| ==> w[i] == BlockOf(fb, loaded, b)[i];
  }

  /** The MD5 kernels never store the head: four registers hold it, the feedback
      before the first block and corpus words before every other. */
  method HeldStep(t: seq<Word>, h: seq<Word>, fb: seq<Word>, loaded: seq<Word>, b: nat) returns (r: seq<Word>)
    requires |t| == Md5.STEPS && |h| == |fb| == 4 && |loaded| == WORDS_PER_BLOCK
    ensures r == Md5.Compress(t, h, BlockOf(fb, loaded, b))
  {
    hide Md5.Compress;
    var head := fb;
    if 0 < b {
      head := loaded[..4];
    }
    assert Spliced(head, loaded) == BlockOf(fb, loaded, b);
    r := Md5.KernelCompress(t, h, head, loaded);
  }

  /** A block of one message in a CPU template. */
  method TemplateStep(x: Code, a: Algorithm, h: seq<Word>, fb: seq<Word>, loaded: seq<Word>, b: nat)
    returns (r: seq<Word>)
    requires x.Computes(a) && |h| == |fb| == a.digestWords && |loaded| == WORDS_PER_BLOCK
    ensures r == a.compress(h, BlockOf(fb, loaded, b))
  {
    hide Algorithm.Valid, Algorithm.Laid, Md5.Compress, Sha1.Compress, Sha512.Compress, Fits, BlockOf;
    match x
    case Md5Code(t) =>
      r := HeldStep(t, h, fb, loaded, b);
    case Sha1Code(k) =>
      var w := Splice(loaded, fb, b);
      r := Sha1.TemplateCompress(k, h, w);
    case Sha512Code(k) =>
      var w := Splice(loaded, fb, b);
      r := Sha512.TemplateCompress(k, h, w);
  }

  /** A block of one message in a device kernel. */
  method DeviceStep(x: Code, a: Algorithm, h: seq<Word>, fb: seq<Word>, loaded: seq<Word>, b: nat)
    returns (r: seq<Word>)
    requires x.Computes(a) && |h| == |fb| == a.digestWords && |loaded| == WORDS_PER_BLOCK
    ensures r == a.compress(h, BlockOf(fb, loaded, b))
  {
    hide Algorithm.Valid, Algorithm.Laid, Md5.Compress, Sha1.Compress, Sha512.Compress, Fits, BlockOf;
    match x
    case Md5Code(t) =>
      r := HeldStep(t, h, fb, loaded, b);
    case Sha1Code(k) =>
      var w := Splice(loaded, fb, b);
      r := Sha1.DeviceCompress(k, h, w);
    case Sha512Code(k) =>
      var w := Splice(loaded, fb, b);
      r := Sha512.DeviceCompress(k, h, w);
  }
}
