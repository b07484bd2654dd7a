/**
 * The common record of a beam check: its type, folder path, acquisition date and
 * machine serial number. The two folder-name parsers the class provides are
 * `PathMetadata.DateFromPath` and `PathMetadata.SerialFromPath`.
 */
module AbstractBeam {
  import opened Wrappers
  import opened PathMetadata

  /** The four fields of an `AbstractBeamModel`, as a value. */
  datatype AbstractState = AbstractState(beamType: string, path: string, date: Option<DateTime>, machineSN: Option<string>)

  /** What a fresh `AbstractBeamModel` holds. */
  const Fresh: AbstractState := AbstractState("", "", None, None)

  class AbstractBeamModel {
    var beamType: string
    var path: string
    var date: Option<DateTime>
    var machineSN: Option<string>

    function State(): AbstractState
      reads this
    {
      AbstractState(beamType, path, date, machineSN)
    }

    constructor()
      ensures State() == Fresh
    {
      beamType := "";
      path := "";
      date := None;
      machineSN := None;
    }

    function GetType(): string
      reads this
    {
      beamType
    }

    function GetDate(): Option<DateTime>
      reads this
    {
      date
    }

    function GetPath(): string
      reads this
    {
      path
    }

    function GetMachineSN(): Option<string>
      reads this
    {
      machineSN
    }

    method SetType(t: string)
      modifies this
      ensures State() == old(State()).(beamType := t) && GetType() == t
    {
      beamType := t;
    }

    method SetPath(p: string)
      modifies this
      ensures State() == old(State()).(path := p) && GetPath() == p
    {
      path := p;
    }

    method SetDate(d: Option<DateTime>)
      modifies this
      ensures State() == old(State()).(date := d) && GetDate() == d
    {
      date := d;
    }

    method SetMachineSN(sn: Option<string>)
      modifies this
      ensures State() == old(State()).(machineSN := sn) && GetMachineSN() == sn
    {
      machineSN := sn;
    }
  }
}
