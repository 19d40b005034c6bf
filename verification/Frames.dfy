/** gateway/src/domain/inputs.ts and gateway/src/routes/videos.ts: from an uploaded image and a size
    field to the frame a job is rendered at. */
module Frames {
  import opened Types
  import opened Sizing
  import opened SizeChecks
  import opened Probe

  /** The magic bytes `readImage` accepts. */
  predicate Sniffed(b: seq<Octet>) {
    || (|b| >= 3 && b[0] == 0xFF && b[1] == 0xD8 && b[2] == 0xFF)
    || (|b| >= 8 && U32BE(b, 0) == 0x89504e47 && U32BE(b, 4) == 0x0d0a1a0a)
    || (|b| >= 12 && TextAt(b, 0, "RIFF") && TextAt(b, 8, "WEBP"))
  }

  predicate Accepted(b: seq<Octet>, maxBytes: nat) {
    0 < |b| <= maxBytes && Sniffed(b)
  }

  /** `Thrown` is an error nothing in the handler catches. */
  datatype FrameReply =
    | MissingImage | InvalidImage | InvalidSize | Thrown
    | Framed(size: string, resolution: Resolution)

  /** Square roots, one for each image and resolution. */
  ghost predicate Roots(root: (real, real, Resolution) -> real) {
    forall w: real, h: real, r: Resolution {:trigger root(w, h, r)} :: w > 0.0 && h > 0.0 ==> ScaleFor(w, h, r, root(w, h, r))
  }

  function Named(text: string): Option<Resolution> {
    if text == "480p" then Some(P480) else if text == "720p" then Some(P720) else None
  }

  ghost function Derived(d: Dimensions, r: Resolution, root: (real, real, Resolution) -> real): FrameReply
    requires Roots(root)
  {
    var z := FitSize(d.width as real, d.height as real, r, root(d.width as real, d.height as real, r));
    if z.None? then Thrown else Framed(PrintSize(z.value), r)
  }

  /** The handler between admission and the insert, as far as the frame is concerned. */
  ghost function ChooseFrame(image: Option<seq<Octet>>, maxBytes: nat, field: string, allowed: seq<Resolution>,
                             root: (real, real, Resolution) -> real): FrameReply
    requires Roots(root)
  {
    if image.None? then MissingImage
    else if !Accepted(image.value, maxBytes) || Probed(image.value).None? then InvalidImage
    else
      var d, requested := Probed(image.value).value, Trim(field);
      if requested == "" then Derived(d, P480, root)
      else if Named(requested).Some? then
        if Named(requested).value in allowed then Derived(d, Named(requested).value, root) else InvalidSize
      else
        var checked := CheckSize(requested, allowed);
        if checked.None? then InvalidSize else Framed(checked.value.size, checked.value.resolution)
  }

  /** The client leaves the frame to the gateway, at a resolution the model has. */
  predicate LeavesSize(field: string, allowed: seq<Resolution>) {
    Trim(field) == "" || (Named(Trim(field)).Some? && Named(Trim(field)).value in allowed)
  }

  /** Deriving a frame throws exactly for the images the probe answers with a zero side, and otherwise
      yields a frame `checkSize` accepts as it stands, billed as the resolution asked for. */
  lemma {:induction false} DerivedIsAccepted(b: seq<Octet>, r: Resolution, root: (real, real, Resolution) -> real)
    requires Roots(root) && Probed(b).Some?
    ensures var f := Derived(Probed(b).value, r, root);
      && (f.Thrown? <==> LossyZero(b))
      && (!LossyZero(b) ==> f.Framed? && CheckSize(f.size, [P480, P720]) == Some(Checked(f.size, r)))
  {
    hide ScaleFor, Probed, LossyZero, CheckSize, PrintSize, Wide, High;
    UsableUnlessLossyZero(b);
    var w, h := Probed(b).value.width as real, Probed(b).value.height as real;
    if !LossyZero(b) { FitPassesCheck(w, h, r, root(w, h, r)); }
  }

  lemma {:induction false} LossyIsSniffed(b: seq<Octet>)
    requires LossyZero(b)
    ensures Sniffed(b) && Probed(b).Some?
  {
    hide U16LE, U32BE, JpegDims, PngDims;
  }

  /** The one input on which submitting throws: an accepted image of that kind, with the size left to the
      gateway. */
  lemma {:induction false} ThrowsExactly(image: Option<seq<Octet>>, maxBytes: nat, field: string, allowed: seq<Resolution>,
                                         root: (real, real, Resolution) -> real)
    requires Roots(root)
    ensures ChooseFrame(image, maxBytes, field, allowed, root).Thrown? <==>
      image.Some? && 0 < |image.value| <= maxBytes && LossyZero(image.value) && LeavesSize(field, allowed)
  {
    hide Roots, Derived, Probed, LossyZero, Sniffed, Trim, CheckSize;
    if image.Some? {
      if LossyZero(image.value) { LossyIsSniffed(image.value); }
      if Probed(image.value).Some? {
        DerivedIsAccepted(image.value, P480, root);
        DerivedIsAccepted(image.value, P720, root);
      }
    }
  }

  predicate RenderedAt(z: Size, w: real, h: real, r: Resolution, root: real) {
    && w > 0.0 && h > 0.0 && root > 0.0
    && z.width % 16 == 0 && z.height % 16 == 0 && 16 <= z.width && 16 <= z.height
    && (r == P480 ==> z.width <= 832 && z.height <= 832 && z.width * z.height <= 480 * 832)
    && (r == P720 ==> z.width <= 1280 && z.height <= 1280 && z.width * z.height <= 720 * 1280)
    && (r == P720 ==> z.width >= 960 || z.height >= 960)
    && z.width as real >= Wide(w, h, r, root) - 15.5 && z.height as real >= High(w, h, r, root) - 15.5
  }

  /** The frame derived for an image at a resolution: the error, for the one kind of image that has a zero
      side; otherwise the print of a size the model can render, as near to the image as the budget allows. */
  ghost predicate DerivedAt(f: FrameReply, b: seq<Octet>, r: Resolution, root: (real, real, Resolution) -> real)
    requires Roots(root) && Probed(b).Some?
  {
    if LossyZero(b) then f == Thrown
    else
      exists z: Size, w: real, h: real ::
        && f == Framed(PrintSize(z), r) && w == Probed(b).value.width as real && h == Probed(b).value.height as real
        && RenderedAt(z, w, h, r, root(w, h, r))
  }

  lemma {:induction false} HasRoot(w: real, h: real, r: Resolution, root: (real, real, Resolution) -> real)
    requires Roots(root) && w > 0.0 && h > 0.0
    ensures root(w, h, r) > 0.0
  {
    assert ScaleFor(w, h, r, root(w, h, r));
  }

  lemma {:induction false} DerivedIs(b: seq<Octet>, r: Resolution, root: (real, real, Resolution) -> real)
    requires Roots(root) && Probed(b).Some?
    ensures DerivedAt(Derived(Probed(b).value, r, root), b, r, root)
  {
    hide ScaleFor, Probed, LossyZero, PrintSize, Wide, High;
    UsableUnlessLossyZero(b);
    var w, h := Probed(b).value.width as real, Probed(b).value.height as real;
    if !LossyZero(b) {
      FitIsRenderable(w, h, r, root(w, h, r));
      if r == P720 { FitIsLong(w, h, root(w, h, r)); }
      var z := FitSize(w, h, r, root(w, h, r)).value;
      HasRoot(w, h, r, root);
      assert RenderedAt(z, w, h, r, root(w, h, r));
    }
  }

  /** The image the handler goes on with, from its bytes. */
  predicate Usable(image: Option<seq<Octet>>, maxBytes: nat) {
    image.Some? && 0 < |image.value| <= maxBytes && Probed(image.value).Some?
    && (var b := image.value;
        || (|b| >= 3 && b[0] == 0xFF && b[1] == 0xD8 && b[2] == 0xFF)
        || (|b| >= 8 && b[0] == 0x89 && b[1] == 0x50 && b[2] == 0x4E && b[3] == 0x47
            && b[4] == 0x0D && b[5] == 0x0A && b[6] == 0x1A && b[7] == 0x0A)
        || (|b| >= 12 && b[0] % 128 == 0x52 && b[1] % 128 == 0x49 && b[2] % 128 == 0x46 && b[3] % 128 == 0x46
            && b[8] % 128 == 0x57 && b[9] % 128 == 0x45 && b[10] % 128 == 0x42 && b[11] % 128 == 0x50))
  }

  lemma {:induction false} UsableIs(image: Option<seq<Octet>>, maxBytes: nat)
    ensures Usable(image, maxBytes) <==> image.Some? && Accepted(image.value, maxBytes) && Probed(image.value).Some?
  {
    hide Probed, TextAt;
    if image.Some? {
      var b := image.value;
      if |b| >= 8 {
        HeadBytes(b[0], b[1], b[2], b[3]);
        HeadBytes(b[4], b[5], b[6], b[7]);
      }
      if |b| >= 12 {
        TagBytes(b, 0, "RIFF");
        TagBytes(b, 8, "WEBP");
      }
    }
  }

  lemma {:induction false} NeverRefused(d: Dimensions, r: Resolution, root: (real, real, Resolution) -> real)
    requires Roots(root)
    ensures !Derived(d, r, root).MissingImage? && !Derived(d, r, root).InvalidImage?
  {
  }

  /** The handler's whole answer. No image, an image that is empty, too big, not one of the three kinds or
      not readable: refused. Then the size field, trimmed: nothing asks for 480p, a resolution for itself if
      the model has it, and anything else must spell a 16-aligned frame that fits an allowed bucket, and is
      billed as the first it fits. */
  lemma {:induction false} FrameIsChosen(image: Option<seq<Octet>>, maxBytes: nat, field: string, allowed: seq<Resolution>,
                                         root: (real, real, Resolution) -> real)
    requires Roots(root)
    ensures var f := ChooseFrame(image, maxBytes, field, allowed, root);
      && (f == MissingImage <==> image == None)
      && (f == InvalidImage <==> image.Some? && !Usable(image, maxBytes))
    ensures Usable(image, maxBytes) ==>
      (var f, b, text := ChooseFrame(image, maxBytes, field, allowed, root), image.value, Trim(field);
       if text == "" then DerivedAt(f, b, P480, root)
       else if text == "480p" then (if P480 in allowed then DerivedAt(f, b, P480, root) else f == InvalidSize)
       else if text == "720p" then (if P720 in allowed then DerivedAt(f, b, P720, root) else f == InvalidSize)
       else
         var m := Match(text);
         if Aligned(m) && !NoFit(m.value, allowed) then
           f.Framed? && f.size == PrintSize(m.value) && exists i :: FirstFit(m.value, allowed, i) && allowed[i] == f.resolution
         else f == InvalidSize)
  {
    hide Roots, Derived, DerivedAt, Probed, Usable, Accepted, Trim, CheckSize, Match, FirstFit, NoFit, Aligned, PrintSize;
    UsableIs(image, maxBytes);
    if Usable(image, maxBytes) {
      DerivedIs(image.value, P480, root);
      DerivedIs(image.value, P720, root);
      NeverRefused(Probed(image.value).value, P480, root);
      NeverRefused(Probed(image.value).value, P720, root);
      CheckedFrames(Trim(field), allowed);
      TrimTwice(field);
    }
  }
}
