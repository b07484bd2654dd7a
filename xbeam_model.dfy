/**
 * The record of a photon (x-ray) beam check. Its setters store their argument as
 * given, and its date parser is a stub.
 */
module XBeam {
  import opened Wrappers
  import opened PyDecimal
  import opened PathMetadata

  /** The six fields of an `XBeamModel`, as a value. */
  datatype XState = XState(beamType: string, date: Option<DateTime>, path: string,
                           relativeUniformity: Decimal, relativeOutput: Decimal, centerShift: Decimal)

  /** What a fresh `XBeamModel` holds: the measurements are `Decimal('0.0')`. */
  const Fresh: XState := XState("", None, "", Zero, Zero, Zero)

  /** `_getDateFromPathName` is a placeholder that returns None for every path. */
  function DateFromPathName(p: string): (r: Option<DateTime>)
    ensures r.None?
  {
    None
  }

  class XBeamModel {
    var beamType: string
    var date: Option<DateTime>
    var path: string
    var relativeUniformity: Decimal
    var relativeOutput: Decimal
    var centerShift: Decimal

    function State(): XState
      reads this
    {
      XState(beamType, date, path, relativeUniformity, relativeOutput, centerShift)
    }

    constructor()
      ensures State() == Fresh
    {
      beamType := "";
      date := None;
      path := "";
      relativeUniformity := Zero;
      relativeOutput := Zero;
      centerShift := Zero;
    }

    function GetType(): string reads this { beamType }
    function GetDate(): Option<DateTime> reads this { date }
    function GetPath(): string reads this { path }
    function GetRelativeUniformity(): Decimal reads this { relativeUniformity }
    function GetRelativeOutput(): Decimal reads this { relativeOutput }
    function GetCenterShift(): Decimal reads this { centerShift }

    method SetType(t: string)
      modifies this
      ensures State() == old(State()).(beamType := t) && GetType() == t
    {
      beamType := t;
    }

    method SetPath(p: string)
      modifies this
      ensures State() == old(State()).(path := p) && GetPath() == p
    {
      path := p;
    }

    method SetDate(d: Option<DateTime>)
      modifies this
      ensures State() == old(State()).(date := d) && GetDate() == d
    {
      date := d;
    }

    method SetRelativeUniformity(v: Decimal)
      modifies this
      ensures State() == old(State()).(relativeUniformity := v) && GetRelativeUniformity() == v
    {
      relativeUniformity := v;
    }

    method SetRelativeOutput(v: Decimal)
      modifies this
      ensures State() == old(State()).(relativeOutput := v) && GetRelativeOutput() == v
    {
      relativeOutput := v;
    }

    method SetCenterShift(v: Decimal)
      modifies this
      ensures State() == old(State()).(centerShift := v) && GetCenterShift() == v
    {
      centerShift := v;
    }
  }
}
