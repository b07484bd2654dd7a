/**
 * The record of an electron beam check. It has no path field, and its two
 * measurement setters coerce through `Decimal(str(value))`.
 */
module EBeam {
  import opened Wrappers
  import opened PyDecimal
  import opened PathMetadata

  /** The four fields of an `EBeamModel`, as a value. */
  datatype EState = EState(beamType: string, date: Option<DateTime>, relativeUniformity: Decimal, relativeOut: Decimal)

  /** What a fresh `EBeamModel` holds. */
  const Fresh: EState := EState("", None, Zero, Zero)

  /** `_getDateFromPathName` is a placeholder that returns None for every path. */
  function DateFromPathName(p: string): (r: Option<DateTime>)
    ensures r.None?
  {
    None
  }

  class EBeamModel {
    var beamType: string
    var date: Option<DateTime>
    var relativeUniformity: Decimal
    var relativeOut: Decimal

    function State(): EState
      reads this
    {
      EState(beamType, date, relativeUniformity, relativeOut)
    }

    constructor()
      ensures State() == Fresh
    {
      beamType := "";
      date := None;
      relativeUniformity := Zero;
      relativeOut := Zero;
    }

    function GetType(): string reads this { beamType }
    function GetDate(): Option<DateTime> reads this { date }
    function GetRelativeUniformity(): Decimal reads this { relativeUniformity }
    function GetRelativeOut(): Decimal reads this { relativeOut }

    method SetType(t: string)
      modifies this
      ensures State() == old(State()).(beamType := t) && GetType() == t
    {
      beamType := t;
    }

    method SetDate(d: Option<DateTime>)
      modifies this
      ensures State() == old(State()).(date := d) && GetDate() == d
    {
      date := d;
    }

    /** Stores `Decimal(str(v))`, which is `v` itself. */
    method SetRelativeUniformity(v: Decimal)
      modifies this
      ensures State() == old(State()).(relativeUniformity := v) && GetRelativeUniformity() == v
    {
      relativeUniformity := ViaStr(v);
    }

    /** Stores `Decimal(str(v))`, which is `v` itself. */
    method SetRelativeOut(v: Decimal)
      modifies this
      ensures State() == old(State()).(relativeOut := v) && GetRelativeOut() == v
    {
      relativeOut := ViaStr(v);
    }
  }
}
