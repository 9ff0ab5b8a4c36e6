/*
 * The geometry bookkeeping of a micromagnetic simulation: the simulated box
 * (`SystemProperties`), named sub-regions built up call by call
 * (`SubRegion`), and a registry that hands sub-regions out by attribute name
 * (`MyRegions`).
 *
 * Lengths and coordinates are modelled as `real`; a region of the external
 * field library is modelled as the pair of corners it is built from.
 */
module SystemGeometry {
  import opened Wrappers

  /** The exceptions the geometry classes raise. */
  datatype GeometryError = ValueError | TypeError | IndexError | KeyError(name: string)

  // ---------------------------------------------------------------------------
  // The simulated box

  /** The default cell pitch of one nanometre along each axis. */
  const DefaultCell: seq<real> := [0.000000001, 0.000000001, 0.000000001]
  const DefaultOrigin: seq<real> := [0.0, 0.0, 0.0]
  const DefaultUnits: seq<string> := ["m", "m", "m"]

  /** The check of the cell pitch: exactly three components, none of them zero.
      A negative component passes. */
  predicate CellAccepted(cell: seq<real>) {
    |cell| == 3 && cell[0] != 0.0 && cell[1] != 0.0 && cell[2] != 0.0
  }

  /** The pitch check asks for three non-zero components and nothing else. */
  lemma CellAcceptedExactly(cell: seq<real>)
    ensures CellAccepted(cell) <==> |cell| == 3 && forall i :: 0 <= i < 3 ==> cell[i] != 0.0
    ensures CellAccepted(DefaultCell)
    ensures CellAccepted([-1.0, 2.0, 3.0])
  {
    if |cell| == 3 && forall i :: 0 <= i < 3 ==> cell[i] != 0.0 {
      assert cell[0] != 0.0 && cell[1] != 0.0 && cell[2] != 0.0;
    }
  }

  class SystemProperties {
    var lx: real
    var ly: real
    var lz: real
    var cell: seq<real>
    var p1: seq<real>
    var units: seq<string>
    var p2: seq<real>
    var numcells: seq<real>

    /** After construction: each length is the given length times its pitch,
        `numcells` keeps the given lengths and `p2` is the far corner. */
    ghost predicate Valid()
      reads this
    {
      && CellAccepted(cell)
      && |numcells| == 3
      && lx == numcells[0] * cell[0]
      && ly == numcells[1] * cell[1]
      && lz == numcells[2] * cell[2]
      && p2 == [lx, ly, lz]
    }

    /** The generated initialiser followed by the accepting branch of the
        post-initialisation step; `NewSystemProperties` is the whole
        construction, with its ValueError. */
    constructor (lx: real, ly: real, lz: real, cell: seq<real>, p1: seq<real>, units: seq<string>)
      requires CellAccepted(cell)
      ensures Valid()
      ensures numcells == [lx, ly, lz]
      ensures this.lx == lx * cell[0] && this.ly == ly * cell[1] && this.lz == lz * cell[2]
      ensures this.cell == cell && this.p1 == p1 && this.units == units
    {
      this.lx := lx;
      this.ly := ly;
      this.lz := lz;
      this.cell := cell;
      this.p1 := p1;
      this.units := units;
      p2 := [];
      numcells := [];
      new;
      numcells := [this.lx, this.ly, this.lz];
      this.lx := this.lx * cell[0];
      this.ly := this.ly * cell[1];
      this.lz := this.lz * cell[2];
      p2 := [this.lx, this.ly, this.lz];
    }
  }

  /** `SystemProperties(lx, ly, lz, cell, p1, units)`: ValueError unless the
      pitch is accepted; otherwise the scaled box. */
  method NewSystemProperties(lx: real, ly: real, lz: real, cell: seq<real>, p1: seq<real>, units: seq<string>)
    returns (r: Result<SystemProperties, GeometryError>)
    ensures r.Ok? <==> CellAccepted(cell)
    ensures r.Err? ==> r.error == ValueError
    ensures r.Ok? ==> fresh(r.value) && r.value.Valid()
    ensures r.Ok? ==> r.value.numcells == [lx, ly, lz]
    ensures r.Ok? ==> r.value.p2 == [lx * cell[0], ly * cell[1], lz * cell[2]]
    ensures r.Ok? ==> r.value.cell == cell && r.value.p1 == p1 && r.value.units == units
  {
    if !CellAccepted(cell) {
      return Err(ValueError);
    }
    var s := new SystemProperties(lx, ly, lz, cell, p1, units);
    r := Ok(s);
  }

  /** With the default pitch, origin and units construction always succeeds. */
  method NewWithDefaults(lx: real, ly: real, lz: real) returns (s: SystemProperties)
    ensures fresh(s) && s.Valid()
    ensures s.numcells == [lx, ly, lz] && s.cell == DefaultCell
    ensures s.p1 == DefaultOrigin && s.units == DefaultUnits
  {
    s := new SystemProperties(lx, ly, lz, DefaultCell, DefaultOrigin, DefaultUnits);
  }

  /** In real arithmetic, the stored `numcells` (the unscaled lengths) equal
      the scaled lengths divided back by the pitch. The constructor never
      divides; this is a fact about the real-valued model only. */
  lemma NumcellsIsQuotient(s: SystemProperties)
    requires s.Valid()
    ensures s.numcells == [s.lx / s.cell[0], s.ly / s.cell[1], s.lz / s.cell[2]]
  {
    var n, c := s.numcells, s.cell;
    Unscale(n[0], c[0]);
    Unscale(n[1], c[1]);
    Unscale(n[2], c[2]);
    assert s.lx / c[0] == n[0] && s.ly / c[1] == n[1] && s.lz / c[2] == n[2];
    assert n == [n[0], n[1], n[2]];
  }

  lemma Unscale(n: real, c: real)
    requires c != 0.0
    ensures n == (n * c) / c
  {
  }

  // ---------------------------------------------------------------------------
  // Sub-regions

  /** A region of the field library, recorded by the corners it was built from. */
  datatype Region = Region(p1: seq<real>, p2: seq<real>)

  /** The `units` argument: a tuple of unit labels, or a scalar factor. */
  datatype UnitsArg = Labels(labels: seq<string>) | Scalar(factor: real)

  /** Every field of a sub-region. */
  datatype SubRegionState = SubRegionState(
    p1: seq<real>, p2: seq<real>, region: Option<Region>,
    dims: seq<string>, cellsize: seq<real>, units: seq<string>)

  /** A fresh sub-region with the given corners: no region, no dims, no
      cell size and no unit labels. */
  function Initial(p1: seq<real>, p2: seq<real>): (s: SubRegionState)
    ensures s.p1 == p1 && s.p2 == p2 && s.region.None?
    ensures s.dims == [] && s.cellsize == [] && s.units == []
  {
    SubRegionState(p1, p2, None, [], [], [])
  }

  /** Every coordinate times one factor. */
  function Scale(p: seq<real>, factor: real): (r: seq<real>)
    ensures |r| == |p|
  {
    seq(|p|, j requires 0 <= j < |p| => p[j] * factor)
  }

  /** The first three coordinates times the matching cell size; IndexError
      when either has fewer than three. */
  function ScaleEach(p: seq<real>, cellsize: seq<real>): (r: Result<seq<real>, GeometryError>)
    ensures r.Ok? <==> |p| >= 3 && |cellsize| >= 3
    ensures r.Err? ==> r.error == IndexError
    ensures r.Ok? ==> |r.value| == 3
  {
    if |p| < 3 || |cellsize| < 3 then Err(IndexError)
    else Ok([p[0] * cellsize[0], p[1] * cellsize[1], p[2] * cellsize[2]])
  }

  /** Scaling by a unit cell keeps the first three coordinates and drops the rest. */
  lemma ScaleEachTruncates(p: seq<real>)
    requires |p| >= 3
    ensures ScaleEach(p, [1.0, 1.0, 1.0]) == Ok(p[..3])
  {
    assert p[..3] == [p[0], p[1], p[2]];
  }

  /** Each scaled coordinate is the coordinate times the cell size on its axis. */
  lemma ScaleEachAxis(p: seq<real>, cellsize: seq<real>, j: nat)
    requires |p| >= 3 && |cellsize| >= 3 && j < 3
    ensures ScaleEach(p, cellsize).value[j] == p[j] * cellsize[j]
  {
  }

  /** `create()`: build the region from the current corners unless one is
      empty; nothing but the region changes. */
  function Created(s: SubRegionState): (t: SubRegionState)
    ensures t.(region := s.region) == s
    ensures |s.p1| > 0 && |s.p2| > 0 ==> t.region == Some(Region(s.p1, s.p2))
    ensures |s.p1| == 0 || |s.p2| == 0 ==> t == s
  {
    if |s.p1| == 0 || |s.p2| == 0 then s else s.(region := Some(Region(s.p1, s.p2)))
  }

  /** The tail of a call with both corners: create the region iff asked to. */
  function Finish(s: SubRegionState, autoCreate: bool): (SubRegionState, Option<GeometryError>) {
    (if autoCreate then Created(s) else s, None)
  }

  /** A call of a sub-region: the new state and the exception raised, if any. */
  function Called(s: SubRegionState, p1: Option<seq<real>>, p2: Option<seq<real>>,
                  cellsize: Option<seq<real>>, units: Option<UnitsArg>,
                  dims: Option<seq<string>>, autoCreate: bool): (r: (SubRegionState, Option<GeometryError>))
    ensures r.1 == None || r.1 == Some(TypeError) || r.1 == Some(IndexError)
    ensures r.1 == Some(TypeError) <==> (p1.None? || p2.None?) && units.Some? && units.value.Scalar?
    ensures p1.None? || p2.None? ==> r.0.p1 == s.p1 && r.0.p2 == s.p2 && r.0.region == s.region
    ensures r.0.region == s.region || r.0.region == Some(Region(r.0.p1, r.0.p2))
  {
    if p1.None? || p2.None? then
      var s1 := if cellsize.Some? then s.(cellsize := cellsize.value) else s;
      if units.Some? && units.value.Scalar? then (s1, Some(TypeError))
      else
        var s2 := if units.Some? then s1.(units := units.value.labels) else s1;
        (if dims.Some? then s2.(dims := dims.value) else s2, None)
    else
      var s1 := s.(p1 := p1.value, p2 := p2.value);
      if cellsize.Some? then
        match ScaleEach(s1.p1, cellsize.value)
        case Err(e) => (s1, Some(e))
        case Ok(q1) =>
          var s2 := s1.(p1 := q1);
          match ScaleEach(s2.p2, cellsize.value)
          case Err(e) => (s2, Some(e))
          case Ok(q2) => Finish(s2.(p2 := q2), autoCreate)
      else if units.Some? && units.value.Scalar? then
        Finish(s1.(p1 := Scale(s1.p1, units.value.factor), p2 := Scale(s1.p2, units.value.factor)), autoCreate)
      else Finish(s1, autoCreate)
  }

  /** Without both corners a call keeps the corners and the region, stores a
      given cell size, a given tuple of labels and given dims, and raises
      TypeError (after storing the cell size) on a scalar `units`. */
  lemma CallWithoutCorners(s: SubRegionState, p1: Option<seq<real>>, p2: Option<seq<real>>,
                           cellsize: Option<seq<real>>, units: Option<UnitsArg>,
                           dims: Option<seq<string>>, autoCreate: bool)
    requires p1.None? || p2.None?
    ensures var (t, err) := Called(s, p1, p2, cellsize, units, dims, autoCreate);
            && t.p1 == s.p1 && t.p2 == s.p2 && t.region == s.region
            && t.cellsize == (if cellsize.Some? then cellsize.value else s.cellsize)
            && (err.Some? <==> units.Some? && units.value.Scalar?)
            && (err.Some? ==> err == Some(TypeError) && t.units == s.units && t.dims == s.dims)
            && (err.None? ==> t.units == (if units.Some? then units.value.labels else s.units))
            && (err.None? ==> t.dims == (if dims.Some? then dims.value else s.dims))
  {
  }

  /** With both corners a call stores no cell size, no labels and no dims. */
  lemma CallWithCornersKeepsSettings(s: SubRegionState, p1: seq<real>, p2: seq<real>,
                                     cellsize: Option<seq<real>>, units: Option<UnitsArg>,
                                     dims: Option<seq<string>>, autoCreate: bool)
    ensures var t := Called(s, Some(p1), Some(p2), cellsize, units, dims, autoCreate).0;
            t.cellsize == s.cellsize && t.units == s.units && t.dims == s.dims
  {
  }

  /** With both corners, a cell size takes precedence over a scalar `units`,
      and neither labels nor dims have any effect. */
  lemma CellsizeTakesPrecedence(s: SubRegionState, p1: seq<real>, p2: seq<real>,
                                cellsize: Option<seq<real>>, units: Option<UnitsArg>,
                                dims: Option<seq<string>>, autoCreate: bool)
    requires cellsize.Some? || units.None? || units.value.Labels?
    ensures Called(s, Some(p1), Some(p2), cellsize, units, dims, autoCreate)
         == Called(s, Some(p1), Some(p2), cellsize, None, None, autoCreate)
  {
  }

  /** With both corners, a call raises only for a cell size applied to a
      corner or cell size of fewer than three components (IndexError);
      otherwise the corners become the given ones, scaled, and the region is
      created iff `autoCreate` and both corners are non-empty. */
  lemma CallWithCorners(s: SubRegionState, p1: seq<real>, p2: seq<real>,
                        cellsize: Option<seq<real>>, units: Option<UnitsArg>,
                        dims: Option<seq<string>>, autoCreate: bool)
    ensures var (t, err) := Called(s, Some(p1), Some(p2), cellsize, units, dims, autoCreate);
            && (err.Some? <==> cellsize.Some? && (|p1| < 3 || |p2| < 3 || |cellsize.value| < 3))
            && (err.Some? ==> err == Some(IndexError) && t.region == s.region)
            && (err.None? && cellsize.Some? ==>
                  t.p1 == ScaleEach(p1, cellsize.value).value && t.p2 == ScaleEach(p2, cellsize.value).value)
            && (err.None? && cellsize.None? && units.Some? && units.value.Scalar? ==>
                  t.p1 == Scale(p1, units.value.factor) && t.p2 == Scale(p2, units.value.factor))
            && (err.None? && cellsize.None? && (units.None? || units.value.Labels?) ==>
                  t.p1 == p1 && t.p2 == p2)
            && (err.None? && autoCreate && |t.p1| > 0 && |t.p2| > 0 ==>
                  t.region == Some(Region(t.p1, t.p2)))
            && (err.None? && !(autoCreate && |t.p1| > 0 && |t.p2| > 0) ==> t.region == s.region)
  {
  }

  /** A call with both corners and a short cell size still stores the raw
      corners before it raises. */
  lemma ShortCellsizeStoresRawCorners(s: SubRegionState, p1: seq<real>, p2: seq<real>,
                                      cellsize: seq<real>, autoCreate: bool)
    requires |cellsize| < 3
    ensures Called(s, Some(p1), Some(p2), Some(cellsize), None, None, autoCreate)
         == (s.(p1 := p1, p2 := p2), Some(IndexError))
  {
  }

  class SubRegion {
    var p1: seq<real>
    var p2: seq<real>
    var region: Option<Region>
    var dims: seq<string>
    var cellsize: seq<real>
    var units: seq<string>

    function State(): SubRegionState
      reads this
    {
      SubRegionState(p1, p2, region, dims, cellsize, units)
    }

    /** `SubRegion(p1, p2)`; the registry creates sub-regions with empty corners. */
    constructor (p1: seq<real>, p2: seq<real>)
      ensures State() == Initial(p1, p2)
    {
      this.p1 := p1;
      this.p2 := p2;
      region := None;
      dims := [];
      cellsize := [];
      units := [];
    }

    /** `create()`. */
    method Create()
      modifies this
      ensures State() == Created(old(State()))
    {
      if |p1| == 0 || |p2| == 0 {
        return;
      }
      region := Some(Region(p1, p2));
    }

    /** The call operator: update corners, cell size, labels and dims by the
        precedence rules, and create the region when asked to. */
    method Call(p1: Option<seq<real>>, p2: Option<seq<real>>, cellsize: Option<seq<real>>,
                units: Option<UnitsArg>, dims: Option<seq<string>>, autoCreate: bool)
      returns (err: Option<GeometryError>)
      modifies this
      ensures (State(), err) == Called(old(State()), p1, p2, cellsize, units, dims, autoCreate)
    {
      err := None;
      if p1.None? || p2.None? {
        if cellsize.Some? {
          this.cellsize := cellsize.value;
        }
        if units.Some? {
          match units.value
          case Labels(labels) =>
            this.units := labels;
          case Scalar(_) =>
            return Some(TypeError);
        }
        if dims.Some? {
          this.dims := dims.value;
        }
      } else {
        this.p1 := p1.value;
        this.p2 := p2.value;
        if cellsize.Some? {
          var q1 := ScaleEach(this.p1, cellsize.value);
          if q1.Err? {
            return Some(q1.error);
          }
          this.p1 := q1.value;
          var q2 := ScaleEach(this.p2, cellsize.value);
          if q2.Err? {
            return Some(q2.error);
          }
          this.p2 := q2.value;
        } else if units.Some? && units.value.Scalar? {
          this.p1 := Scale(this.p1, units.value.factor);
          this.p2 := Scale(this.p2, units.value.factor);
        }
        if autoCreate {
          Create();
        }
      }
    }
  }

  // ---------------------------------------------------------------------------
  // The registry

  /** What attribute access on the registry yields. */
  datatype Attr = Registry(registry: MyRegions) | Name(text: string) | Sub(sub: SubRegion)

  class MyRegions {
    var name: string
    var subregions: map<string, SubRegion>

    constructor (name: string)
      ensures this.name == name && subregions == map[]
    {
      this.name := name;
      subregions := map[];
    }

    /** Attribute access: "subregion" is the registry itself, the registry's
        own name is that name, and any other name is its sub-region, created
        empty on first use. */
    method GetAttr(attr: string) returns (r: Attr)
      modifies this
      ensures name == old(name)
      ensures attr == "subregion" ==> r == Registry(this) && subregions == old(subregions)
      ensures attr != "subregion" && attr == name ==> r == Name(name) && subregions == old(subregions)
      ensures attr != "subregion" && attr != name ==> attr in subregions && r == Sub(subregions[attr])
      ensures attr != "subregion" && attr != name && attr in old(subregions) ==> subregions == old(subregions)
      ensures attr != "subregion" && attr != name && attr !in old(subregions) ==>
                && fresh(subregions[attr])
                && subregions[attr].State() == Initial([], [])
                && subregions == old(subregions)[attr := subregions[attr]]
    {
      if attr == "subregion" {
        return Registry(this);
      }
      if attr == name {
        return Name(name);
      }
      if attr !in subregions {
        var created := new SubRegion([], []);
        subregions := subregions[attr := created];
      }
      r := Sub(subregions[attr]);
    }

    /** `delete_subregion`: drop exactly the named entry, or raise KeyError
        and change nothing. */
    method DeleteSubregion(subregionName: string) returns (err: Option<GeometryError>)
      modifies this
      ensures name == old(name)
      ensures err.None? <==> subregionName in old(subregions)
      ensures err.None? ==> subregions == old(subregions) - {subregionName}
      ensures err.Some? ==> err == Some(KeyError(subregionName)) && subregions == old(subregions)
    {
      if subregionName in subregions {
        subregions := subregions - {subregionName};
        err := None;
      } else {
        err := Some(KeyError(subregionName));
      }
    }
  }

  /** Looking the same name up twice gives the same object both times. */
  method LookupTwice(registry: MyRegions, attr: string) returns (first: Attr, second: Attr)
    modifies registry
    ensures first == second
    ensures attr != "subregion" && attr != old(registry.name) ==> first.Sub?
  {
    first := registry.GetAttr(attr);
    second := registry.GetAttr(attr);
  }
}
