/** The NIRISS subarray geometry table of the second-generation package: for
    each readout, its extent, its starting pixel and how many reference pixels
    line each edge (x1 left, x2 right, y1 bottom, y2 top), plus the frame and
    group times where the table has them. */
module Subarray {
  import opened Wrappers
  import FrameTimes
  import Sim2dTso
  import LdMap

  /** One table entry; `None` stands for a `None` start or a missing key. */
  datatype Geometry = Geometry(xloc: Option<int>, x: nat, x1: nat, x2: nat,
                               yloc: Option<int>, y: nat, y1: nat, y2: nat,
                               tfrm: Option<real>, tgrp: Option<real>)

  /** An entry without frame and group times. */
  function Plain(xloc: Option<int>, x: nat, x1: nat, x2: nat, yloc: Option<int>, y: nat, y1: nat, y2: nat): Geometry {
    Geometry(xloc, x, x1, x2, yloc, y, y1, y2, None, None)
  }

  const PIX: map<string, Geometry> := map[
    "FULL" := Geometry(Some(1), 2048, 4, 4, Some(1), 2048, 4, 4, Some(10.73676), Some(10.73676)),
    "SUBSTRIP96" := Geometry(Some(1), 2048, 4, 4, Some(1803), 96, 0, 0, Some(2.3), Some(2.3)),
    "SUBSTRIP256" := Geometry(Some(1), 2048, 4, 4, Some(1793), 256, 0, 4, Some(5.4), Some(5.4)),
    "SUB80" := Plain(None, 80, 0, 0, None, 80, 4, 0),
    "SUB64" := Plain(None, 64, 0, 4, None, 64, 0, 4),
    "SUB128" := Plain(None, 128, 0, 4, None, 128, 0, 4),
    "SUB256" := Plain(None, 256, 0, 4, None, 256, 0, 4),
    "SUBAMPCAL" := Plain(None, 512, 4, 0, None, 1792, 4, 0),
    "WFSS64R" := Plain(None, 64, 0, 4, Some(1), 2048, 4, 0),
    "WFSS64C" := Plain(Some(1), 2048, 4, 0, None, 64, 0, 4),
    "WFSS128R" := Plain(None, 128, 0, 4, Some(1), 2048, 4, 0),
    "WFSS128C" := Plain(Some(1), 2048, 4, 0, None, 128, 0, 4),
    "SUBTASOSS" := Plain(None, 64, 0, 0, None, 64, 0, 0),
    "SUBTAAMI" := Plain(None, 64, 0, 0, None, 64, 0, 0)
  ]

  /** What `subarray(arr)` returns: the entry of a known name, or the whole
      table for any other name. */
  datatype Found = Entry(geometry: Geometry) | Table(all: map<string, Geometry>)

  /** `subarray(arr)`: a dictionary lookup whose failure returns the table. */
  function Lookup(arr: string): (r: Found)
    ensures r.Entry? <==> arr in PIX
    ensures r.Entry? ==> r.geometry == PIX[arr]
    ensures r.Table? ==> r.all == PIX
  {
    if arr in PIX then Entry(PIX[arr]) else Table(PIX)
  }

  /** The fourteen readouts the table knows. */
  lemma KnownNames()
    ensures PIX.Keys == {"FULL", "SUBSTRIP96", "SUBSTRIP256", "SUB80", "SUB64", "SUB128", "SUB256",
                         "SUBAMPCAL", "WFSS64R", "WFSS64C", "WFSS128R", "WFSS128C", "SUBTASOSS", "SUBTAAMI"}
  {
  }

  /** In every readout the reference pixels leave science pixels between
      them, across and along. */
  lemma BordersFit(arr: string)
    requires arr in PIX
    ensures PIX[arr].x1 + PIX[arr].x2 < PIX[arr].x
    ensures PIX[arr].y1 + PIX[arr].y2 < PIX[arr].y
  {
  }

  /** The default argument `''` is no readout name: it yields the table. */
  lemma DefaultIsTable()
    ensures Lookup("") == Table(PIX)
  {
  }

  /** The rows the table gives the three SOSS readouts. */
  lemma StripRows()
    ensures "FULL" in PIX && PIX["FULL"].y == 2048
    ensures "SUBSTRIP96" in PIX && PIX["SUBSTRIP96"].y == 96
    ensures "SUBSTRIP256" in PIX && PIX["SUBSTRIP256"].y == 256
  {
  }

  /** The SOSS strips have the rows that both first-generation rules give them. */
  lemma SossRowsAgree(arr: string)
    requires arr == "FULL" || arr == "SUBSTRIP96" || arr == "SUBSTRIP256"
    ensures Lookup(arr).geometry.y == Sim2dTso.Rows(arr) == LdMap.MapRows(arr)
  {
    StripRows();
    if arr == "SUBSTRIP256" {
      Sim2dTso.RowsOfStrip256();
    } else if arr == "SUBSTRIP96" {
      Sim2dTso.RowsOfStrip96();
    } else {
      Sim2dTso.RowsOfFull();
    }
  }

  /** The table's frame times are not the simulator's: 5.4 against 5.491 for
      SUBSTRIP256, 2.3 against 2.213 for SUBSTRIP96, 10.73676 against 10.737
      for FULL. */
  lemma FrameTimesDisagree(arr: string)
    requires arr == "FULL" || arr == "SUBSTRIP96" || arr == "SUBSTRIP256"
    ensures Lookup(arr).geometry.tfrm.Some?
    ensures Lookup(arr).geometry.tfrm.value != FrameTimes.FrameTimeFor(arr)
  {
  }
}
