/**
 * The track editor's main window: the grid of 256 x 256 tiles a new track
 * is made of, the scene rectangle around it, clearing the tiles, changing
 * the active tile's type from the toolbar, the zoom slider's scale and the
 * ".trk" rule of Save As. Dialogs, the view and the console widget are
 * left out; the messages of the modelled operations that carry no numbers
 * are kept as a log, and the outcome of saving a file is a parameter.
 */
module EditorWindow {
  import opened Wrappers

  const TileW: nat := 256
  const TileH: nat := 256
  const Margin: int := 0
  const MinZoom: int := 0
  const MaxZoom: int := 200
  const IniZoom: int := 100
  const TrackSuffix: string := ".trk"

  datatype TileType = NoTile | StraightGrass | CornerGrass | Grass | OtherType(code: int)

  /** A track tile: its size, its centre in scene coordinates and its type. */
  datatype Tile = Tile(width: nat, height: nat, centreX: int, centreY: int, tileType: TileType)

  /** The tile createGrid places at column i, row j, with the type a new tile starts with. */
  function NewTile(i: nat, j: nat, initial: TileType): (t: Tile)
    ensures t.width == TileW && t.height == TileH && t.tileType == initial
    ensures t.centreX - t.width / 2 == i * TileW && t.centreX + t.width / 2 == (i + 1) * TileW
    ensures t.centreY - t.height / 2 == j * TileH && t.centreY + t.height / 2 == (j + 1) * TileH
  {
    Tile(TileW, TileH, TileW / 2 + i * TileW, TileH / 2 + j * TileH, initial)
  }

  predicate InGrid(cell: (nat, nat), cols: nat, rows: nat) {
    cell.0 < cols && cell.1 < rows
  }

  /** QRectF: left, top, width, height. */
  datatype Rect = Rect(x: int, y: int, width: int, height: int)

  /** The scene rectangle of a new track: the whole grid plus the margin on each side. */
  function SceneRect(cols: nat, rows: nat): (r: Rect)
    ensures r.x == -Margin && r.x + r.width == cols * TileW + Margin
    ensures r.y == -Margin && r.y + r.height == rows * TileH + Margin
  {
    Rect(-Margin, -Margin, 2 * Margin + cols * TileW, 2 * Margin + rows * TileH)
  }

  /** With no margin the scene is exactly the grid, and every new tile lies inside it. */
  lemma {:induction false} TilesInsideScene(cols: nat, rows: nat, i: nat, j: nat, initial: TileType)
    requires i < cols && j < rows
    ensures SceneRect(cols, rows) == Rect(0, 0, cols * 256, rows * 256)
    ensures var t := NewTile(i, j, initial); var r := SceneRect(cols, rows);
            r.x <= t.centreX - TileW / 2 && t.centreX + TileW / 2 <= r.x + r.width &&
            r.y <= t.centreY - TileH / 2 && t.centreY + TileH / 2 <= r.y + r.height
  {
    assert (i + 1) * 256 <= cols * 256;
    assert (j + 1) * 256 <= rows * 256;
  }

  /** Different cells get different centres, 256 apart along each axis. */
  lemma CentresDistinct(i: nat, j: nat, i': nat, j': nat, initial: TileType)
    requires (i, j) != (i', j')
    ensures var a, b := NewTile(i, j, initial), NewTile(i', j', initial);
            a.centreX != b.centreX || a.centreY != b.centreY
  {
  }

  function EndsWith(s: string, suffix: string): bool {
    |s| >= |suffix| && s[|s| - |suffix|..] == suffix
  }

  /** The name Save As writes to: the chosen name with ".trk" appended unless it already ends so. */
  function SaveAsFileName(name: string): (r: string)
    ensures EndsWith(r, TrackSuffix)
    ensures EndsWith(name, TrackSuffix) ==> r == name
    ensures !EndsWith(name, TrackSuffix) ==> r == name + TrackSuffix
  {
    if EndsWith(name, TrackSuffix) then name
    else
      assert (name + TrackSuffix)[|name + TrackSuffix| - |TrackSuffix|..] == TrackSuffix;
      name + TrackSuffix
  }

  /** Applying the rule twice gives the same name as applying it once. */
  lemma SaveAsFileNameIdempotent(name: string)
    ensures SaveAsFileName(SaveAsFileName(name)) == SaveAsFileName(name)
  {
  }

  /** The tile type a toolbar action's data stands for; other data stands for none. */
  function ToolbarTileType(data: string): (t: Option<TileType>)
    ensures t == Some(StraightGrass) <==> data == "straight"
    ensures t == Some(CornerGrass) <==> data == "corner"
    ensures t == Some(Grass) <==> data == "grass"
    ensures t.None? <==> data != "straight" && data != "corner" && data != "grass"
  {
    if data == "straight" then Some(StraightGrass)
    else if data == "corner" then Some(CornerGrass)
    else if data == "grass" then Some(Grass)
    else None
  }

  /** The view scale for a zoom slider value: percent. */
  function ScaleFor(value: int): (s: real)
    ensures s * 100.0 == value as real
  {
    value as real / 100.0
  }

  /** The slider's range 0..200 gives scales from 0 to 2, and its initial value the unit scale. */
  lemma ZoomRange(value: int)
    requires MinZoom <= value <= MaxZoom
    ensures 0.0 <= ScaleFor(value) <= 2.0
    ensures ScaleFor(IniZoom) == 1.0
  {
  }

  /** TrackData: the track's name, size, tiles by (column, row) and file name. */
  class TrackData {
    var name: string
    const cols: nat
    const rows: nat
    var tiles: map<(nat, nat), Tile>
    var fileName: string

    constructor (n: string, c: nat, r: nat)
      ensures name == n && cols == c && rows == r && tiles == map[] && fileName == ""
    {
      name, cols, rows := n, c, r;
      tiles := map[];
      fileName := "";
    }
  }

  /** MainWindow::console: every message is prefixed with the time of day it was written at. */
  function Stamped(time: string, text: string): (m: string)
    ensures |m| == |time| + |text| + 4
    ensures m[..1] == "(" && m[1..|time| + 1] == time && m[|time| + 1..|time| + 4] == "): "
    ensures m[|m| - |text|..] == text
  {
    "(" + time + "): " + text
  }

  /** The window's message when it opens. */
  const Welcome: string := "Choose 'File -> New' or 'File -> Open' to start.."

  class MainWindow {
    /** The current track; none until File -> New or File -> Open. */
    var trackData: TrackData?
    /** The active tile (TrackTile::activeTile), by its cell. */
    var activeTile: Option<(nat, nat)>
    var sceneRect: Rect
    var viewScale: real
    var saveEnabled: bool
    var saveAsEnabled: bool
    var consoleLog: seq<string>

    /** An active tile is one of the track's tiles, and Save As is offered only for a track. */
    ghost predicate Valid()
      reads this, trackData
    {
      (activeTile.Some? ==> trackData != null && activeTile.value in trackData.tiles) &&
      (saveAsEnabled ==> trackData != null)
    }

    /**
     * The window as it opens: no track, Save and Save As disabled, the
     * view at the initial zoom, and the welcome message written at `time`.
     */
    constructor (time: string)
      ensures Valid() && trackData == null && activeTile == None && viewScale == ScaleFor(IniZoom)
      ensures !saveEnabled && !saveAsEnabled && consoleLog == [Stamped(time, Welcome)]
    {
      trackData := null;
      activeTile := None;
      sceneRect := Rect(0, 0, 0, 0);
      viewScale := ScaleFor(IniZoom);
      saveEnabled, saveAsEnabled := false, false;
      consoleLog := ["(" + time + "): " + Welcome];
    }

    /** updateScale: the view is scaled by value / 100. */
    method UpdateScale(value: int)
      modifies this
      ensures viewScale == ScaleFor(value)
      ensures trackData == old(trackData) && activeTile == old(activeTile) && sceneRect == old(sceneRect)
      ensures saveEnabled == old(saveEnabled) && saveAsEnabled == old(saveAsEnabled)
      ensures consoleLog == old(consoleLog)
    {
      viewScale := value as real / 100.0;
    }

    /**
     * handleToolBarActionClick: with an active tile, known toolbar data sets
     * its type and anything else leaves it; without one, a message is logged.
     */
    method HandleToolBarActionClick(action: Option<string>, time: string)
      requires Valid()
      modifies trackData, this
      ensures Valid()
      ensures trackData == old(trackData) && activeTile == old(activeTile)
      ensures activeTile.Some? && action.Some? && ToolbarTileType(action.value).Some? ==>
                var cell := activeTile.value;
                trackData.tiles == old(trackData.tiles)[cell := old(trackData.tiles)[cell].(tileType := ToolbarTileType(action.value).value)]
      ensures activeTile.Some? && (action.None? || ToolbarTileType(action.value).None?) ==>
                trackData.tiles == old(trackData.tiles)
      ensures activeTile.Some? ==> consoleLog == old(consoleLog)
      ensures activeTile.None? ==> consoleLog == old(consoleLog) + [Stamped(time, "No tiles selected.")]
      ensures trackData != null ==> trackData.fileName == old(trackData.fileName) && trackData.name == old(trackData.name)
      ensures activeTile.None? && trackData != null ==> trackData.tiles == old(trackData.tiles)
      ensures sceneRect == old(sceneRect) && viewScale == old(viewScale)
      ensures saveEnabled == old(saveEnabled) && saveAsEnabled == old(saveAsEnabled)
    {
      if activeTile.Some? {
        var cell := activeTile.value;
        if action.Some? {
          var data := action.value;
          if data == "straight" {
            trackData.tiles := trackData.tiles[cell := trackData.tiles[cell].(tileType := StraightGrass)];
          } else if data == "corner" {
            trackData.tiles := trackData.tiles[cell := trackData.tiles[cell].(tileType := CornerGrass)];
          } else if data == "grass" {
            trackData.tiles := trackData.tiles[cell := trackData.tiles[cell].(tileType := Grass)];
          }
        }
      } else {
        consoleLog := consoleLog + ["(" + time + "): " + "No tiles selected."];
      }
    }

    /**
     * saveAsTrack, reachable only through the Save As action, which is
     * enabled once there is a track: the chosen name gets the ".trk"
     * suffix; only a successful save stores it as the track's file name
     * and enables Save.
     */
    method SaveAsTrack(chosen: string, save: string -> bool, time: string)
      requires Valid() && saveAsEnabled
      modifies this, trackData
      ensures Valid() && trackData == old(trackData)
      ensures var f := SaveAsFileName(chosen);
              if save(f) then trackData.fileName == f && saveEnabled
              else trackData.fileName == old(trackData.fileName) && saveEnabled == old(saveEnabled)
      ensures trackData.tiles == old(trackData.tiles) && trackData.name == old(trackData.name)
      ensures activeTile == old(activeTile) && sceneRect == old(sceneRect) && viewScale == old(viewScale)
      ensures saveAsEnabled == old(saveAsEnabled)
      ensures var f := SaveAsFileName(chosen);
              consoleLog == old(consoleLog) +
                [Stamped(time, if save(f) then "Track '" + f + "' saved." else "Failed to save track as '" + f + "'.")]
    {
      var fileName := chosen;
      if !EndsWith(fileName, ".trk") {
        fileName := fileName + ".trk";
      }

      if save(fileName) {
        consoleLog := consoleLog + ["(" + time + "): " + ("Track '" + fileName + "' saved.")];
        trackData.fileName := fileName;
        saveEnabled := true;
      } else {
        consoleLog := consoleLog + ["(" + time + "): " + ("Failed to save track as '" + fileName + "'.")];
      }
    }

    /**
     * createGrid: one new tile in every cell of the track, replacing what
     * was there; then the tile in cell (0, 0), if any, becomes active.
     */
    method CreateGrid(initial: TileType)
      requires Valid() && trackData != null
      modifies trackData, this
      ensures Valid()
      ensures trackData == old(trackData)
      ensures forall cell :: InGrid(cell, trackData.cols, trackData.rows) ==>
                cell in trackData.tiles && trackData.tiles[cell] == NewTile(cell.0, cell.1, initial)
      ensures forall cell :: !InGrid(cell, trackData.cols, trackData.rows) ==>
                (cell in trackData.tiles <==> cell in old(trackData.tiles)) &&
                (cell in trackData.tiles ==> trackData.tiles[cell] == old(trackData.tiles)[cell])
      ensures activeTile == if (0, 0) in trackData.tiles then Some((0, 0)) else old(activeTile)
      ensures trackData.fileName == old(trackData.fileName) && trackData.name == old(trackData.name)
      ensures sceneRect == old(sceneRect) && viewScale == old(viewScale) && consoleLog == old(consoleLog)
      ensures saveEnabled == old(saveEnabled) && saveAsEnabled == old(saveAsEnabled)
    {
      var td := trackData;
      for i := 0 to td.cols
        modifies td
        invariant td.fileName == old(td.fileName) && td.name == old(td.name)
        invariant forall cell: (nat, nat) :: InGrid(cell, i, td.rows) ==>
                    cell in td.tiles && td.tiles[cell] == NewTile(cell.0, cell.1, initial)
        invariant forall cell: (nat, nat) :: !InGrid(cell, i, td.rows) ==>
                    (cell in td.tiles <==> cell in old(td.tiles)) &&
                    (cell in td.tiles ==> td.tiles[cell] == old(td.tiles)[cell])
        invariant Valid()
      {
        for j := 0 to td.rows
          modifies td
          invariant td.fileName == old(td.fileName) && td.name == old(td.name)
          invariant forall cell: (nat, nat) :: (InGrid(cell, i, td.rows) || (cell.0 == i && cell.1 < j)) ==>
                      cell in td.tiles && td.tiles[cell] == NewTile(cell.0, cell.1, initial)
          invariant forall cell: (nat, nat) :: !(InGrid(cell, i, td.rows) || (cell.0 == i && cell.1 < j)) ==>
                      (cell in td.tiles <==> cell in old(td.tiles)) &&
                      (cell in td.tiles ==> td.tiles[cell] == old(td.tiles)[cell])
          invariant Valid()
        {
          td.tiles := td.tiles[(i, j) := NewTile(i, j, initial)];
        }
      }

      if (0, 0) in td.tiles {
        activeTile := Some((0, 0));
      }
    }

    /**
     * clear as the Edit menu offers it, at any time: without a track the
     * source reads the track's size through a null pointer. The model
     * reports that as `crashed` and goes no further; with a track it
     * clears as Clear does.
     */
    method ClearAsWritten() returns (crashed: bool)
      requires Valid()
      modifies trackData, this
      ensures crashed <==> old(trackData) == null
      ensures Valid() && trackData == old(trackData)
      ensures crashed ==> consoleLog == old(consoleLog) && activeTile == old(activeTile)
      ensures !crashed ==> consoleLog == old(consoleLog) + ["Tiles cleared."]
      ensures !crashed ==> trackData.tiles.Keys == old(trackData.tiles).Keys
      ensures !crashed ==> forall cell :: cell in trackData.tiles ==>
                trackData.tiles[cell] ==
                  if InGrid(cell, trackData.cols, trackData.rows)
                  then old(trackData.tiles)[cell].(tileType := NoTile)
                  else old(trackData.tiles)[cell]
      ensures !crashed ==> trackData.fileName == old(trackData.fileName) && trackData.name == old(trackData.name)
      ensures activeTile == old(activeTile) && sceneRect == old(sceneRect) && viewScale == old(viewScale)
      ensures saveEnabled == old(saveEnabled) && saveAsEnabled == old(saveAsEnabled)
    {
      crashed := trackData == null;
      if !crashed {
        Clear();
      }
    }

    /**
     * clear, with the missing track checked: without a track nothing
     * changes; with one, every tile in the grid becomes empty, the cells
     * stay occupied and the message is appended without a time stamp.
     */
    method Clear()
      requires Valid()
      modifies trackData, this
      ensures Valid()
      ensures trackData == old(trackData)
      ensures trackData == null ==> consoleLog == old(consoleLog)
      ensures trackData != null ==>
                trackData.tiles.Keys == old(trackData.tiles).Keys &&
                consoleLog == old(consoleLog) + ["Tiles cleared."]
      ensures trackData != null ==> forall cell :: cell in trackData.tiles ==>
                trackData.tiles[cell] ==
                  if InGrid(cell, trackData.cols, trackData.rows)
                  then old(trackData.tiles)[cell].(tileType := NoTile)
                  else old(trackData.tiles)[cell]
      ensures trackData != null ==> trackData.fileName == old(trackData.fileName) && trackData.name == old(trackData.name)
      ensures activeTile == old(activeTile) && sceneRect == old(sceneRect) && viewScale == old(viewScale)
      ensures saveEnabled == old(saveEnabled) && saveAsEnabled == old(saveAsEnabled)
    {
      if trackData == null {
        return;
      }
      var td := trackData;
      for i := 0 to td.cols
        modifies td
        invariant td.fileName == old(td.fileName) && td.name == old(td.name)
        invariant td.tiles.Keys == old(td.tiles).Keys
        invariant forall cell: (nat, nat) :: cell in td.tiles ==>
                    td.tiles[cell] == if InGrid(cell, i, td.rows)
                                      then old(td.tiles)[cell].(tileType := NoTile)
                                      else old(td.tiles)[cell]
      {
        for j := 0 to td.rows
          modifies td
          invariant td.fileName == old(td.fileName) && td.name == old(td.name)
          invariant td.tiles.Keys == old(td.tiles).Keys
          invariant forall cell: (nat, nat) :: cell in td.tiles ==>
                      td.tiles[cell] == if InGrid(cell, i, td.rows) || (cell.0 == i && cell.1 < j)
                                        then old(td.tiles)[cell].(tileType := NoTile)
                                        else old(td.tiles)[cell]
        {
          if (i, j) in td.tiles {
            td.tiles := td.tiles[(i, j) := td.tiles[(i, j)].(tileType := NoTile)];
          }
        }
      }

      consoleLog := consoleLog + ["Tiles cleared."];
    }

    /**
     * initializeNewTrack: when the dialog is accepted, a new track of the
     * given size replaces the old one, the scene is sized to its grid, the
     * grid is created and Save As is enabled. The previous active tile
     * belonged to the replaced track and is forgotten.
     */
    method InitializeNewTrack(accepted: bool, name: string, cols: nat, rows: nat, initial: TileType)
      requires Valid()
      modifies this
      ensures Valid()
      ensures !accepted ==> trackData == old(trackData) && sceneRect == old(sceneRect) &&
                            activeTile == old(activeTile) && saveAsEnabled == old(saveAsEnabled)
      ensures accepted ==> fresh(trackData) && trackData.name == name && trackData.cols == cols && trackData.rows == rows
      ensures accepted ==> sceneRect == SceneRect(cols, rows) && saveAsEnabled
      ensures accepted ==> forall cell :: cell in trackData.tiles <==> InGrid(cell, cols, rows)
      ensures accepted ==> forall cell :: cell in trackData.tiles ==> trackData.tiles[cell] == NewTile(cell.0, cell.1, initial)
      ensures accepted ==> activeTile == if cols > 0 && rows > 0 then Some((0, 0)) else None
      ensures saveEnabled == old(saveEnabled) && viewScale == old(viewScale) && consoleLog == old(consoleLog)
    {
      if accepted {
        trackData := new TrackData(name, cols, rows);
        activeTile := None;
        sceneRect := SceneRect(cols, rows);
        CreateGrid(initial);
        saveAsEnabled := true;
      }
    }
  }

  /** Choosing Edit -> Clear in a window that has just opened reads a track that is not there. */
  method ClearBeforeNewTrack(time: string) returns (crashed: bool)
    ensures crashed
  {
    var w := new MainWindow(time);
    crashed := w.ClearAsWritten();
  }

  /** With the check, the same choice leaves the window as it opened. */
  method CheckedClearBeforeNewTrack(time: string) returns (log: seq<string>, active: Option<(nat, nat)>)
    ensures log == [Stamped(time, Welcome)] && active == None
  {
    var w := new MainWindow(time);
    w.Clear();
    log, active := w.consoleLog, w.activeTile;
  }
}
