/**
 * The record of an imaging check: type, path, date and the image itself. Its date
 * parser is `PathMetadata.DateFromPath`, the same leftmost-timestamp rule the beam
 * records use.
 */
module Image {
  import opened Wrappers
  import opened PathMetadata

  /** Pixel rows; the image analysis that produces and reads them is not modelled. */
  type Pixels = seq<seq<int>>

  /** The four fields of an `ImageModel`, as a value. */
  datatype ImageState = ImageState(beamType: string, path: string, date: Option<DateTime>, image: Option<Pixels>)

  /** What a fresh `ImageModel` holds. */
  const Fresh: ImageState := ImageState("", "", None, None)

  class ImageModel {
    var beamType: string
    var path: string
    var date: Option<DateTime>
    var image: Option<Pixels>

    function State(): ImageState
      reads this
    {
      ImageState(beamType, path, date, image)
    }

    constructor()
      ensures State() == Fresh
    {
      beamType := "";
      path := "";
      date := None;
      image := None;
    }

    function GetType(): string reads this { beamType }
    function GetPath(): string reads this { path }
    function GetDate(): Option<DateTime> reads this { date }
    function GetImage(): Option<Pixels> reads this { image }

    method SetType(t: string)
      modifies this
      ensures State() == old(State()).(beamType := t) && GetType() == t
    {
      beamType := t;
    }

    method SetPath(p: string)
      modifies this
      ensures State() == old(State()).(path := p) && GetPath() == p
    {
      path := p;
    }

    method SetDate(d: Option<DateTime>)
      modifies this
      ensures State() == old(State()).(date := d) && GetDate() == d
    {
      date := d;
    }

    method SetImage(img: Option<Pixels>)
      modifies this
      ensures State() == old(State()).(image := img) && GetImage() == img
    {
      image := img;
    }
  }
}
