/**
 * The logo uploader: a local copy of the logo's dimensions and position, the updates it sends
 * through `onUpdateLogo`, and the checks on an uploaded file. Object URLs, image decoding and
 * alerts are outside the model: the URL and the decoded image size are inputs, and a rejected
 * file is reported as a value.
 */
module LogoUploader {
  import opened Wrappers
  import opened Types
  import opened JsNumbers

  datatype Dimensions = Dimensions(width: real, height: real)

  /** A `Partial<LogoStyle>`: `Some(None)` sets a field to undefined. */
  datatype LogoPatch = LogoPatch(
    imageUrl: Option<Option<string>>,
    aspectRatio: Option<Option<real>>,
    rotation: Option<real>,
    width: Option<real>,
    height: Option<real>,
    position: Option<Position>)

  const NoLogoChanges := LogoPatch(None, None, None, None, None, None)

  /** `value || fallback` for an optional number: an absent or zero value falls back. */
  function OrElse(v: Option<real>, fallback: real): (r: real)
    ensures v.Some? && v.value != 0.0 ==> r == v.value
    ensures v.None? || v.value == 0.0 ==> r == fallback
  {
    if v.Some? && v.value != 0.0 then v.value else fallback
  }

  /** The dimensions the component derives from the logo: `width || size`, `height || size`. */
  function DimensionsOf(logo: ElementStyle): (r: Dimensions)
    ensures logo.width.Some? && logo.width.value != 0.0 ==> r.width == logo.width.value
    ensures logo.width.None? || logo.width.value == 0.0 ==> r.width == logo.size
    ensures logo.height.Some? && logo.height.value != 0.0 ==> r.height == logo.height.value
    ensures logo.height.None? || logo.height.value == 0.0 ==> r.height == logo.size
  {
    Dimensions(OrElse(logo.width, logo.size), OrElse(logo.height, logo.size))
  }

  /** The rotation after one press: `((rotation || 0) + 90) % 360`. */
  function NextRotation(rotation: Option<real>): (r: real)
    ensures 0.0 <= OrElse(rotation, 0.0) ==> 0.0 <= r < 360.0
  {
    JsRem(OrElse(rotation, 0.0) + 90.0, 360.0)
  }

  function Swap(d: Dimensions): (r: Dimensions)
    ensures r.width == d.height && r.height == d.width
  {
    Dimensions(d.height, d.width)
  }

  /** Two rotations give back the original dimensions. */
  lemma SwapTwice(d: Dimensions)
    ensures Swap(Swap(d)) == d
  {
  }

  datatype Dimension = Width | Height

  /** `logo.aspectRatio` is truthy. */
  predicate HasRatio(aspectRatio: Option<real>) {
    aspectRatio.Some? && aspectRatio.value != 0.0
  }

  /** The dimensions after typing `value` into one of the two fields. */
  function Resized(d: Dimensions, dim: Dimension, value: real, aspectRatio: Option<real>): (r: Dimensions)
    ensures dim == Width ==> r.width == value
    ensures dim == Height ==> r.height == value
    ensures !HasRatio(aspectRatio) ==> r == Dimensions(value, value)
  {
    var ratio := OrElse(aspectRatio, 1.0);
    match dim
    case Width => Dimensions(value, if HasRatio(aspectRatio) then value / ratio else value)
    case Height => Dimensions(if HasRatio(aspectRatio) then value * ratio else value, value)
  }

  /** With an aspect ratio, either edit keeps width / height equal to it. */
  lemma ResizeKeepsRatio(d: Dimensions, dim: Dimension, value: real, aspectRatio: Option<real>)
    requires value > 0.0 && HasRatio(aspectRatio)
    ensures var r := Resized(d, dim, value, aspectRatio);
      r.height != 0.0 && r.width / r.height == aspectRatio.value
  {
    var ratio := aspectRatio.value;
    var r := Resized(d, dim, value, aspectRatio);
    if dim == Width {
      assert r.height == value / ratio;
      calc {
        r.width / r.height;
        == value / (value / ratio);
        == { DivDiv(value, ratio); }
        ratio;
      }
    } else {
      assert r.width == value * ratio;
      calc {
        r.width / r.height;
        == (value * ratio) / value;
        == ratio;
      }
    }
  }

  lemma DivDiv(v: real, k: real)
    requires v != 0.0 && k != 0.0
    ensures v / k != 0.0 && v / (v / k) == k
  {
    var q := v / k;
    assert q * k == v;
    assert q != 0.0;
    calc {
      v / q;
      == (q * k) / q;
      == k;
    }
  }

  /** The dimensions on loading an image of the given size: as wide as the logo's size, with the image's ratio. */
  function LoadedDimensions(size: real, imageWidth: real, imageHeight: real): (r: Dimensions)
    requires imageWidth > 0.0 && imageHeight > 0.0
    ensures r.width == size
    ensures size != 0.0 ==> r.height != 0.0 && r.width / r.height == imageWidth / imageHeight
  {
    var aspectRatio := imageWidth / imageHeight;
    if size != 0.0 then DivDiv(size, aspectRatio); Dimensions(size, size / aspectRatio)
    else Dimensions(size, size / aspectRatio)
  }

  /** What `handleFileChange` does with the chosen file before reading it. */
  datatype FileCheck = NoFile | NotPng | TooLarge | Accepted

  const MaxLogoBytes: int := 1024 * 1024

  /** A missing file is ignored; a non-PNG or one above 1 MiB is refused, in that order. */
  function CheckFile(file: Option<(string, int)>): (r: FileCheck)
    ensures r == Accepted <==> file.Some? && file.value.0 == "image/png" && file.value.1 <= 1048576
    ensures r == NoFile <==> file.None?
    ensures r == NotPng <==> file.Some? && file.value.0 != "image/png"
    ensures r == TooLarge <==> file.Some? && file.value.0 == "image/png" && file.value.1 > 1048576
  {
    if file.None? then NoFile
    else if file.value.0 != "image/png" then NotPng
    else if file.value.1 > MaxLogoBytes then TooLarge
    else Accepted
  }

  /** The uploader's state: the logo it was given, its own copies of dimensions and position, and the updates sent. */
  class Uploader {
    var logo: ElementStyle
    var dimensions: Dimensions
    var position: Position
    var sent: seq<LogoPatch>

    constructor (l: ElementStyle)
      ensures logo == l && dimensions == DimensionsOf(l) && position == l.position && sent == []
    {
      logo := l;
      dimensions := DimensionsOf(l);
      position := l.position;
      sent := [];
    }

    /** A new `logo` prop; the effect resyncs only when width, height, size or position changed. */
    method ReceiveLogo(l: ElementStyle)
      modifies this
      ensures logo == l && sent == old(sent)
      ensures (l.width, l.height, l.size, l.position) != old((logo.width, logo.height, logo.size, logo.position)) ==>
        dimensions == DimensionsOf(l) && position == l.position
      ensures (l.width, l.height, l.size, l.position) == old((logo.width, logo.height, logo.size, logo.position)) ==>
        dimensions == old(dimensions) && position == old(position)
    {
      var changed := (l.width, l.height, l.size, l.position) != (logo.width, logo.height, logo.size, logo.position);
      logo := l;
      if changed {
        dimensions := DimensionsOf(l);
        position := l.position;
      }
    }

    /** `handleRotate`: the next quarter turn, with width and height exchanged. */
    method HandleRotate()
      modifies this
      ensures dimensions == Swap(old(dimensions))
      ensures sent == old(sent) + [NoLogoChanges.(rotation := Some(NextRotation(logo.rotation)),
                                                 width := Some(old(dimensions).height), height := Some(old(dimensions).width))]
      ensures logo == old(logo) && position == old(position)
    {
      sent := sent + [NoLogoChanges.(rotation := Some(JsRem(OrElse(logo.rotation, 0.0) + 90.0, 360.0)),
                                     width := Some(dimensions.height), height := Some(dimensions.width))];
      dimensions := Dimensions(dimensions.height, dimensions.width);
    }

    /** `handleRemove`: image and ratio cleared, rotation 0, both dimensions the logo's size; returns the URL revoked. */
    method HandleRemove() returns (revoked: Option<string>)
      modifies this
      ensures dimensions == Dimensions(logo.size, logo.size)
      ensures sent == old(sent) + [LogoPatch(Some(None), Some(None), Some(0.0), Some(logo.size), Some(logo.size), None)]
      ensures revoked == if logo.imageUrl.Some? && logo.imageUrl.value != "" then logo.imageUrl else None
      ensures logo == old(logo) && position == old(position)
    {
      revoked := if logo.imageUrl.Some? && logo.imageUrl.value != "" then logo.imageUrl else None;
      sent := sent + [LogoPatch(Some(None), Some(None), Some(0.0), Some(logo.size), Some(logo.size), None)];
      dimensions := Dimensions(logo.size, logo.size);
    }

    /** `handleDimensionChange`: a value that is NaN (None) or not positive is ignored. */
    method HandleDimensionChange(dim: Dimension, parsed: Option<real>)
      modifies this
      ensures parsed.None? || parsed.value <= 0.0 ==> dimensions == old(dimensions) && sent == old(sent)
      ensures parsed.Some? && parsed.value > 0.0 ==>
        && dimensions == Resized(old(dimensions), dim, parsed.value, logo.aspectRatio)
        && sent == old(sent) + [NoLogoChanges.(width := Some(dimensions.width), height := Some(dimensions.height))]
      ensures logo == old(logo) && position == old(position)
    {
      if parsed.None? || parsed.value <= 0.0 {
        return;
      }
      var numValue := parsed.value;
      var aspectRatio := OrElse(logo.aspectRatio, 1.0);
      var newWidth := dimensions.width;
      var newHeight := dimensions.height;
      if dim == Width {
        newWidth := numValue;
        newHeight := if HasRatio(logo.aspectRatio) then numValue / aspectRatio else numValue;
      } else {
        newHeight := numValue;
        newWidth := if HasRatio(logo.aspectRatio) then numValue * aspectRatio else numValue;
      }
      dimensions := Dimensions(newWidth, newHeight);
      sent := sent + [NoLogoChanges.(width := Some(newWidth), height := Some(newHeight))];
    }

    /** `handlePositionChange`: only the named axis changes; NaN (None) is ignored. */
    method HandlePositionChange(axis: Axis, parsed: Option<real>)
      modifies this
      ensures parsed.None? ==> position == old(position) && sent == old(sent)
      ensures parsed.Some? ==>
        && position == (if axis == X then old(position).(x := parsed.value) else old(position).(y := parsed.value))
        && sent == old(sent) + [NoLogoChanges.(position := Some(position))]
      ensures logo == old(logo) && dimensions == old(dimensions)
    {
      if parsed.None? {
        return;
      }
      position := if axis == X then position.(x := parsed.value) else position.(y := parsed.value);
      sent := sent + [NoLogoChanges.(position := Some(position))];
    }

    /** The checks of `handleFileChange`; nothing changes before the image has loaded. */
    method HandleFileChange(file: Option<(string, int)>) returns (check: FileCheck)
      ensures check == CheckFile(file)
    {
      check := CheckFile(file);
    }

    /** The image's `onload`: the logo's size as width and the image's ratio, sent with the URL. */
    method HandleImageLoad(url: string, imageWidth: real, imageHeight: real)
      requires imageWidth > 0.0 && imageHeight > 0.0
      modifies this
      ensures dimensions == LoadedDimensions(logo.size, imageWidth, imageHeight)
      ensures sent == old(sent) + [LogoPatch(Some(Some(url)), Some(Some(imageWidth / imageHeight)), None,
                                            Some(dimensions.width), Some(dimensions.height), None)]
      ensures logo == old(logo) && position == old(position)
    {
      var aspectRatio := imageWidth / imageHeight;
      var newWidth := logo.size;
      var newHeight := logo.size / aspectRatio;
      dimensions := Dimensions(newWidth, newHeight);
      sent := sent + [LogoPatch(Some(Some(url)), Some(Some(aspectRatio)), None, Some(newWidth), Some(newHeight), None)];
    }
  }
}
