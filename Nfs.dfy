/** The script data of one map: the root script file, its respawn regions,
    its NPC props and the script functions attached to both.

    Every property setter of these entities notifies its observers with a
    property name. Here each object keeps the ghost sequence `events` of the
    names it has announced, in order; `OnPropertyChanged` appends to it. */
module ScriptData {
  import opened Coordinates

  /** Signature and format version a new script file starts with. */
  const Signature: string := "nFlavor Script\0\0"
  const FormatVersion: int := 2

  /** A script function attached to a region or a prop: an opaque string. */
  class Function {
    var functionString: string
    ghost var events: seq<string>

    constructor ()
      ensures functionString == "" && events == []
    {
      functionString := "";
      events := [];
    }

    method SetFunctionString(value: string)
      modifies this`functionString, this`events
      ensures functionString == value
      ensures events == old(events) + ["FunctionString"]
    {
      functionString := value;
      OnPropertyChanged("FunctionString");
    }

    ghost method OnPropertyChanged(propertyName: string)
      modifies this`events
      ensures events == old(events) + [propertyName]
    {
      events := events + [propertyName];
    }
  }

  /** A respawn region: a rectangle whose edges are stored in tiles relative
      to the current block, a description and the attached scripts. No order
      between left and right or top and bottom is imposed. */
  class Location {
    var left: int
    var top: int
    var right: int
    var bottom: int
    var description: string
    var script: seq<Function>
    ghost var events: seq<string>

    constructor ()
      ensures left == 0 && top == 0 && right == 0 && bottom == 0
      ensures description == "" && script == [] && events == []
    {
      left, top, right, bottom := 0, 0, 0, 0;
      description := "";
      script := [];
      events := [];
    }

    method SetLeft(value: int)
      modifies this`left, this`events
      ensures left == value && events == old(events) + ["Left"]
    {
      left := value;
      OnPropertyChanged("Left");
    }

    method SetTop(value: int)
      modifies this`top, this`events
      ensures top == value && events == old(events) + ["Top"]
    {
      top := value;
      OnPropertyChanged("Top");
    }

    method SetRight(value: int)
      modifies this`right, this`events
      ensures right == value && events == old(events) + ["Right"]
    {
      right := value;
      OnPropertyChanged("Right");
    }

    method SetBottom(value: int)
      modifies this`bottom, this`events
      ensures bottom == value && events == old(events) + ["Bottom"]
    {
      bottom := value;
      OnPropertyChanged("Bottom");
    }

    /** World coordinates of the four edges in the current block. */
    function MLeft(ctx: BlockContext): (w: int)
      reads this
      ensures ctx.tileLength > 0 && 0 <= left <= BlockSize / ctx.tileLength ==>
        InBlock(ctx.blockX, w) && WorldToTile(ctx.blockX, w, ctx.tileLength) == left
    {
      if ctx.tileLength > 0 && 0 <= left <= BlockSize / ctx.tileLength then
        TileRoundTrip(ctx.blockX, left, ctx.tileLength);
        TileToWorld(ctx.blockX, left, ctx.tileLength)
      else
        TileToWorld(ctx.blockX, left, ctx.tileLength)
    }

    function MTop(ctx: BlockContext): (w: int)
      reads this
      ensures ctx.tileLength > 0 && 0 <= top <= BlockSize / ctx.tileLength ==>
        InBlock(ctx.blockY, w) && WorldToTile(ctx.blockY, w, ctx.tileLength) == top
    {
      if ctx.tileLength > 0 && 0 <= top <= BlockSize / ctx.tileLength then
        TileRoundTrip(ctx.blockY, top, ctx.tileLength);
        TileToWorld(ctx.blockY, top, ctx.tileLength)
      else
        TileToWorld(ctx.blockY, top, ctx.tileLength)
    }

    function MRight(ctx: BlockContext): (w: int)
      reads this
      ensures ctx.tileLength > 0 && 0 <= right <= BlockSize / ctx.tileLength ==>
        InBlock(ctx.blockX, w) && WorldToTile(ctx.blockX, w, ctx.tileLength) == right
    {
      if ctx.tileLength > 0 && 0 <= right <= BlockSize / ctx.tileLength then
        TileRoundTrip(ctx.blockX, right, ctx.tileLength);
        TileToWorld(ctx.blockX, right, ctx.tileLength)
      else
        TileToWorld(ctx.blockX, right, ctx.tileLength)
    }

    function MBottom(ctx: BlockContext): (w: int)
      reads this
      ensures ctx.tileLength > 0 && 0 <= bottom <= BlockSize / ctx.tileLength ==>
        InBlock(ctx.blockY, w) && WorldToTile(ctx.blockY, w, ctx.tileLength) == bottom
    {
      if ctx.tileLength > 0 && 0 <= bottom <= BlockSize / ctx.tileLength then
        TileRoundTrip(ctx.blockY, bottom, ctx.tileLength);
        TileToWorld(ctx.blockY, bottom, ctx.tileLength)
      else
        TileToWorld(ctx.blockY, bottom, ctx.tileLength)
    }

    /** Sets the left edge from a world coordinate through the Left property,
        which announces "Left"; an in-block value then also announces "mLeft".
        After an in-block write the edge reads back as the largest tile
        boundary not above the value, and writing back what the edge reads
        leaves it unchanged. */
    method SetMLeft(ctx: BlockContext, value: int)
      requires ctx.tileLength > 0 || !InBlock(ctx.blockX, value)
      modifies this`left, this`events
      ensures left == WorldToTile(ctx.blockX, value, ctx.tileLength)
      ensures events == old(events) + if InBlock(ctx.blockX, value) then ["Left", "mLeft"] else ["Left"]
      ensures InBlock(ctx.blockX, value) ==>
        Origin(ctx.blockX) <= MLeft(ctx) <= value < MLeft(ctx) + ctx.tileLength
      ensures InBlock(ctx.blockX, MLeft(ctx))
      ensures ctx.tileLength > 0 && value == old(MLeft(ctx)) && 0 <= old(left) <= BlockSize / ctx.tileLength ==> left == old(left)
    {
      TileWriteReadsInBlock(ctx.blockX, value, ctx.tileLength);
      var part := ctx.blockX * BlockSize;
      var partmax := ctx.blockX * BlockSize + BlockSize;
      if value < part || value > partmax {
        SetLeft(0);
        return;
      }
      SetLeft((value - part) / ctx.tileLength);
      OnPropertyChanged("mLeft");
    }

    /** Sets the top edge from a world coordinate through the Top property,
        which announces "Top"; an in-block value then also announces "mRight"
        (not "mTop"). */
    method SetMTop(ctx: BlockContext, value: int)
      requires ctx.tileLength > 0 || !InBlock(ctx.blockY, value)
      modifies this`top, this`events
      ensures top == WorldToTile(ctx.blockY, value, ctx.tileLength)
      ensures events == old(events) + if InBlock(ctx.blockY, value) then ["Top", "mRight"] else ["Top"]
      ensures InBlock(ctx.blockY, value) ==>
        Origin(ctx.blockY) <= MTop(ctx) <= value < MTop(ctx) + ctx.tileLength
      ensures InBlock(ctx.blockY, MTop(ctx))
      ensures ctx.tileLength > 0 && value == old(MTop(ctx)) && 0 <= old(top) <= BlockSize / ctx.tileLength ==> top == old(top)
    {
      TileWriteReadsInBlock(ctx.blockY, value, ctx.tileLength);
      var part := ctx.blockY * BlockSize;
      var partmax := ctx.blockY * BlockSize + BlockSize;
      if value < part || value > partmax {
        SetTop(0);
        return;
      }
      SetTop((value - part) / ctx.tileLength);
      OnPropertyChanged("mRight");
    }

    /** Sets the right edge from a world coordinate by writing the field
        directly: "Right" is never announced, an in-block value announces
        "mRight" and an out-of-block value announces nothing. */
    method SetMRight(ctx: BlockContext, value: int)
      requires ctx.tileLength > 0 || !InBlock(ctx.blockX, value)
      modifies this`right, this`events
      ensures right == WorldToTile(ctx.blockX, value, ctx.tileLength)
      ensures events == old(events) + if InBlock(ctx.blockX, value) then ["mRight"] else []
      ensures InBlock(ctx.blockX, value) ==>
        Origin(ctx.blockX) <= MRight(ctx) <= value < MRight(ctx) + ctx.tileLength
      ensures InBlock(ctx.blockX, MRight(ctx))
      ensures ctx.tileLength > 0 && value == old(MRight(ctx)) && 0 <= old(right) <= BlockSize / ctx.tileLength ==> right == old(right)
    {
      TileWriteReadsInBlock(ctx.blockX, value, ctx.tileLength);
      var part := ctx.blockX * BlockSize;
      var partmax := ctx.blockX * BlockSize + BlockSize;
      if value < part || value > partmax {
        right := 0;
        return;
      }
      right := (value - part) / ctx.tileLength;
      OnPropertyChanged("mRight");
    }

    /** Sets the bottom edge from a world coordinate by writing the field
        directly: "Bottom" is never announced, an in-block value announces
        "mBottom" and an out-of-block value announces nothing. */
    method SetMBottom(ctx: BlockContext, value: int)
      requires ctx.tileLength > 0 || !InBlock(ctx.blockY, value)
      modifies this`bottom, this`events
      ensures bottom == WorldToTile(ctx.blockY, value, ctx.tileLength)
      ensures events == old(events) + if InBlock(ctx.blockY, value) then ["mBottom"] else []
      ensures InBlock(ctx.blockY, value) ==>
        Origin(ctx.blockY) <= MBottom(ctx) <= value < MBottom(ctx) + ctx.tileLength
      ensures InBlock(ctx.blockY, MBottom(ctx))
      ensures ctx.tileLength > 0 && value == old(MBottom(ctx)) && 0 <= old(bottom) <= BlockSize / ctx.tileLength ==> bottom == old(bottom)
    {
      TileWriteReadsInBlock(ctx.blockY, value, ctx.tileLength);
      var part := ctx.blockY * BlockSize;
      var partmax := ctx.blockY * BlockSize + BlockSize;
      if value < part || value > partmax {
        bottom := 0;
        return;
      }
      bottom := (value - part) / ctx.tileLength;
      OnPropertyChanged("mBottom");
    }

    method SetDescription(value: string)
      modifies this`description, this`events
      ensures description == value && events == old(events) + ["Description"]
    {
      description := value;
      OnPropertyChanged("Description");
    }

    /** Replaces the attached scripts; the name announced is "Script". */
    method SetScripts(value: seq<Function>)
      modifies this`script, this`events
      ensures script == value && events == old(events) + ["Script"]
    {
      script := value;
      OnPropertyChanged("Script");
    }

    ghost method OnPropertyChanged(propertyName: string)
      modifies this`events
      ensures events == old(events) + [propertyName]
    {
      events := events + [propertyName];
    }
  }

  /** An NPC prop: an id, a position stored as unscaled offsets from the
      current block's origin, a model id and the attached scripts. */
  class PropScriptInfo {
    var propId: int
    var x: real
    var y: real
    var modelId: int
    var records: seq<Function>
    ghost var events: seq<string>

    constructor ()
      ensures propId == 0 && x == 0.0 && y == 0.0 && modelId == 0
      ensures records == [] && events == []
    {
      propId, x, y, modelId := 0, 0.0, 0.0, 0;
      records := [];
      events := [];
    }

    method SetPropId(value: int)
      modifies this`propId, this`events
      ensures propId == value && events == old(events) + ["PropId"]
    {
      propId := value;
      OnPropertyChanged("PropId");
    }

    method SetX(value: real)
      modifies this`x, this`events
      ensures x == value && events == old(events) + ["X"]
    {
      x := value;
      OnPropertyChanged("X");
    }

    method SetY(value: real)
      modifies this`y, this`events
      ensures y == value && events == old(events) + ["Y"]
    {
      y := value;
      OnPropertyChanged("Y");
    }

    /** World coordinates of the prop in the current block. */
    function MX(ctx: BlockContext): (w: real)
      reads this
      ensures 0.0 <= x <= BlockSize as real ==>
        InBlockReal(ctx.blockX, w) && WorldToPoint(ctx.blockX, w) == x
    {
      PointToWorld(ctx.blockX, x)
    }

    function MY(ctx: BlockContext): (w: real)
      reads this
      ensures 0.0 <= y <= BlockSize as real ==>
        InBlockReal(ctx.blockY, w) && WorldToPoint(ctx.blockY, w) == y
    {
      PointToWorld(ctx.blockY, y)
    }

    /** Sets x from a world coordinate by writing the field directly: an
        in-block value is stored exactly and announces "X"; an out-of-block
        value stores zero and announces nothing. */
    method SetMX(ctx: BlockContext, value: real)
      modifies this`x, this`events
      ensures x == WorldToPoint(ctx.blockX, value)
      ensures events == old(events) + if InBlockReal(ctx.blockX, value) then ["X"] else []
      ensures InBlockReal(ctx.blockX, value) ==> MX(ctx) == value
      ensures value == old(MX(ctx)) && 0.0 <= old(x) <= BlockSize as real ==> x == old(x)
    {
      var part := ctx.blockX * BlockSize;
      var partmax := ctx.blockX * BlockSize + BlockSize;
      if value < part as real || value > partmax as real {
        x := 0.0;
        return;
      }
      x := value - part as real;
      OnPropertyChanged("X");
    }

    /** Sets y from a world coordinate, as SetMX does for x. */
    method SetMY(ctx: BlockContext, value: real)
      modifies this`y, this`events
      ensures y == WorldToPoint(ctx.blockY, value)
      ensures events == old(events) + if InBlockReal(ctx.blockY, value) then ["Y"] else []
      ensures InBlockReal(ctx.blockY, value) ==> MY(ctx) == value
      ensures value == old(MY(ctx)) && 0.0 <= old(y) <= BlockSize as real ==> y == old(y)
    {
      var part := ctx.blockY * BlockSize;
      var partmax := ctx.blockY * BlockSize + BlockSize;
      if value < part as real || value > partmax as real {
        y := 0.0;
        return;
      }
      y := value - part as real;
      OnPropertyChanged("Y");
    }

    method SetModelId(value: int)
      modifies this`modelId, this`events
      ensures modelId == value && events == old(events) + ["ModelId"]
    {
      modelId := value;
      OnPropertyChanged("ModelId");
    }

    /** Replaces the attached scripts; the name announced is "Records". */
    method SetScripts(value: seq<Function>)
      modifies this`records, this`events
      ensures records == value && events == old(events) + ["Records"]
    {
      records := value;
      OnPropertyChanged("Records");
    }

    ghost method OnPropertyChanged(propertyName: string)
      modifies this`events
      ensures events == old(events) + [propertyName]
    {
      events := events + [propertyName];
    }
  }

  /** Number of regions in `regions` that carry at least one script. */
  function ScriptedCount(regions: seq<Location>): (n: nat)
    reads regions
    ensures n <= |regions|
    ensures n == |regions| <==> forall i :: 0 <= i < |regions| ==> regions[i].script != []
  {
    if regions == [] then 0
    else
      var last := regions[|regions| - 1];
      ScriptedCount(regions[..|regions| - 1]) + if last.script != [] then 1 else 0
  }

  /** The indices of the regions that carry at least one script. */
  ghost function ScriptedIndices(regions: seq<Location>): set<int>
    reads regions
  {
    set i | 0 <= i < |regions| && regions[i].script != []
  }

  /** ScriptedCount counts exactly the regions whose script list is not empty. */
  lemma {:induction false} ScriptedCountIsFilterSize(regions: seq<Location>)
    ensures ScriptedCount(regions) == |ScriptedIndices(regions)|
  {
    if regions != [] {
      var n := |regions| - 1;
      var init := regions[..n];
      ScriptedCountIsFilterSize(init);
      assert forall i :: 0 <= i < n ==> init[i] == regions[i];
      if regions[n].script != [] {
        assert ScriptedIndices(regions) == ScriptedIndices(init) + {n};
      } else {
        assert ScriptedIndices(regions) == ScriptedIndices(init);
      }
    }
  }

  /** The root script file: signature, format version, respawn regions and
      NPC props. */
  class Nfs {
    var sign: string
    var version: int
    var respawns: seq<Location>
    var props: seq<PropScriptInfo>
    ghost var events: seq<string>

    constructor ()
      ensures sign == Signature && version == FormatVersion
      ensures respawns == [] && props == [] && events == []
    {
      sign := Signature;
      version := FormatVersion;
      respawns := [];
      props := [];
      events := [];
    }

    method SetSign(value: string)
      modifies this`sign, this`events
      ensures sign == value && events == old(events) + ["Sign"]
    {
      sign := value;
      OnPropertyChanged("Sign");
    }

    method SetVersion(value: int)
      modifies this`version, this`events
      ensures version == value && events == old(events) + ["Version"]
    {
      version := value;
      OnPropertyChanged("Version");
    }

    method SetRespawns(value: seq<Location>)
      modifies this`respawns, this`events
      ensures respawns == value && events == old(events) + ["Respawns"]
    {
      respawns := value;
      OnPropertyChanged("Respawns");
    }

    method SetProps(value: seq<PropScriptInfo>)
      modifies this`props, this`events
      ensures props == value && events == old(events) + ["Props"]
    {
      props := value;
      OnPropertyChanged("Props");
    }

    /** Counts the regions that have at least one script, in one pass over
        the respawn list; changes nothing. */
    method GetScriptCount() returns (count: int)
      ensures count == ScriptedCount(respawns)
      ensures 0 <= count <= |respawns|
    {
      count := 0;
      var k := 0;
      while k < |respawns|
        invariant 0 <= k <= |respawns|
        invariant count == ScriptedCount(respawns[..k])
      {
        var location := respawns[k];
        assert respawns[..k + 1][..k] == respawns[..k];
        if |location.script| != 0 {
          count := count + 1;
        }
        k := k + 1;
      }
      assert respawns[..k] == respawns;
    }

    ghost method OnPropertyChanged(propertyName: string)
      modifies this`events
      ensures events == old(events) + [propertyName]
    {
      events := events + [propertyName];
    }
  }
}
