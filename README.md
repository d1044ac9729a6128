# Script data of the map editor, in Dafny

This project models the script-data layer of a game map editor. A script
file (`Nfs`) holds a signature, a format version and two ordered lists. The
first is the respawn regions (`Location`). The second is the NPC props
(`PropScriptInfo`). Regions and props each carry an ordered list of script
functions (`Function`). Each function is an opaque string.

Region edges are stored as tile counts relative to the origin of the current
map block. Prop positions are stored as unscaled offsets from that origin.
The editor reads and writes them as world coordinates through `mLeft`,
`mTop`, `mRight`, `mBottom`, `mX` and `mY`. One block spans 16128 world
units. Reading gives `block * 16128 + local * tileLength` for a region edge
and `block * 16128 + local` for a prop. A world value in
`[block * 16128, block * 16128 + 16128]`, both ends included, is written back
as a tile count (rounded down) or as an exact offset. Any other value resets
the stored coordinate to zero.

Every property setter notifies observers with a property name. Each object
here keeps a ghost sequence `events` of the names it has announced, and
`OnPropertyChanged` appends to it. The model keeps the names the code really
announces:
- `mTop` announces `"mRight"`.
- The region `Scripts` setter announces `"Script"`.
- The prop `Scripts` setter announces `"Records"`.
- `mRight` and `mBottom` write their fields directly. They never announce
  `"Right"` or `"Bottom"`, and they announce nothing when the value is
  outside the block.
- `mX` and `mY` behave the same way: they announce `"X"` or `"Y"` only when
  the value is in the block.

Each world setter writes only its own edge: `mLeft` writes `left`, `mTop`
writes `top`, `mRight` writes `right` and `mBottom` writes `bottom`
(Models/NFS/Nfs.cs:164/168, 186/190, 208/212, 230/234). Each world setter's
`modifies` clause names only its own field and the event log. A new file's
signature is the 16 characters `"nFlavor Script\0\0"` (Models/NFS/Nfs.cs:13).

The editor reads the current block (`MapWorker.Instance.X`/`Y`) and the tile
size (`Global.tileLenght`) from global state. Here they are passed in as a
`BlockContext` parameter.

Files:
- `Coordinates.dfy` (module `Coordinates`) holds the pure transform and its
  lemmas.
- `Nfs.dfy` (module `ScriptData`) holds the four classes and the
  scripted-region count.

C# integer division truncates toward zero, and Dafny's rounds down. They
agree here because the dividend `value - part` is never negative in the
branch that divides, and the tile length is positive.

## Model

| member | source | states |
|---|---|---|
| `Coordinates.WorldToTile` | Models/NFS/Nfs.cs:159-168 | for a value in the block (ends included), the stored tile count lies in `[0, 16128 / tileLength]` and its world coordinate is the largest tile boundary not above the value (`mLeft <= v < mLeft + tileLength`); a value outside the block stores 0 |
| `Coordinates.TileRoundTrip` | Models/NFS/Nfs.cs:156-168 | for every tile count in `[0, 16128 / tileLength]`, the world coordinate it reads as lies in the block and writing that coordinate back stores the same count |
| `Coordinates.TileSnapIsLargest` | Models/NFS/Nfs.cs:156-168 | no tile count larger than the stored one has a world coordinate at or below the written in-block value |
| `Coordinates.TileWriteReadsInBlock` | Models/NFS/Nfs.cs:156-168 | after writing any world value (in or out of the block), the edge reads back as a coordinate of the current block |
| `Coordinates.TileWriteIdempotent` | Models/NFS/Nfs.cs:156-168 | writing an edge again with the value it reads back after a first write stores the same tile count as the first write |
| `Coordinates.WorldToPoint` | Models/NFS/Nfs.cs:338-347 | for a value in the block, the stored offset lies in `[0, 16128]` and reads back as exactly that value; a value outside the block stores 0 |
| `Coordinates.PointRoundTrip` | Models/NFS/Nfs.cs:335-347 | for every offset in `[0, 16128]`, writing back the world coordinate it reads as stores the same offset |
| `ScriptData.ScriptedCount` | Models/NFS/Nfs.cs:80-88 | the number of regions with a non-empty script list is at most the number of regions, and equals it exactly when every region has a script |
| `ScriptData.ScriptedCountIsFilterSize` | Models/NFS/Nfs.cs:80-88 | the count equals the size of the set of indices of regions whose script list is non-empty |
| `ScriptData.Nfs.GetScriptCount` | Models/NFS/Nfs.cs:80-88 | the loop returns exactly the number of respawn regions with at least one script, a value between 0 and the number of regions; the method has no `modifies` clause, so nothing changes |
| `ScriptData.Nfs.constructor` | Models/NFS/Nfs.cs:13-17 | a new script file has signature `"nFlavor Script\0\0"`, version 2, no regions, no props and an empty event log |
| `ScriptData.Nfs.SetSign` | Models/NFS/Nfs.cs:23-30 | stores the signature, announces `"Sign"`, changes no other field |
| `ScriptData.Nfs.SetVersion` | Models/NFS/Nfs.cs:37-44 | stores the version, announces `"Version"`, changes no other field |
| `ScriptData.Nfs.SetRespawns` | Models/NFS/Nfs.cs:50-57 | stores the region list, announces `"Respawns"`, changes no other field |
| `ScriptData.Nfs.SetProps` | Models/NFS/Nfs.cs:63-70 | stores the prop list, announces `"Props"`, changes no other field |
| `ScriptData.Nfs.OnPropertyChanged` | Models/NFS/Nfs.cs:90-93 | appends exactly the given name to the file's event log |
| `ScriptData.Location.constructor` | Models/NFS/Nfs.cs:100-105 | a new region has all four edges 0, an empty description, no scripts and an empty event log |
| `ScriptData.Location.SetLeft` | Models/NFS/Nfs.cs:108-116 | stores the local left edge, announces `"Left"`, changes no other field |
| `ScriptData.Location.SetTop` | Models/NFS/Nfs.cs:119-127 | stores the local top edge, announces `"Top"`, changes no other field |
| `ScriptData.Location.SetRight` | Models/NFS/Nfs.cs:130-138 | stores the local right edge, announces `"Right"`, changes no other field |
| `ScriptData.Location.SetBottom` | Models/NFS/Nfs.cs:141-149 | stores the local bottom edge, announces `"Bottom"`, changes no other field |
| `ScriptData.Location.MLeft` | Models/NFS/Nfs.cs:156 | reads `blockX * 16128 + left * tileLength`; for a positive tile length and `left` in `[0, 16128 / tileLength]` that coordinate lies in the X block and writing it back stores `left` again (the round trip of `Coordinates.TileRoundTrip`, partner of `SetMLeft`) |
| `ScriptData.Location.MTop` | Models/NFS/Nfs.cs:178 | reads `blockY * 16128 + top * tileLength`; for `top` in `[0, 16128 / tileLength]` it lies in the Y block and writing it back stores `top` again (`Coordinates.TileRoundTrip`, partner of `SetMTop`) |
| `ScriptData.Location.MRight` | Models/NFS/Nfs.cs:200 | reads `blockX * 16128 + right * tileLength`; for `right` in `[0, 16128 / tileLength]` it lies in the X block and writing it back stores `right` again (`Coordinates.TileRoundTrip`, partner of `SetMRight`) |
| `ScriptData.Location.MBottom` | Models/NFS/Nfs.cs:222 | reads `blockY * 16128 + bottom * tileLength`; for `bottom` in `[0, 16128 / tileLength]` it lies in the Y block and writing it back stores `bottom` again (`Coordinates.TileRoundTrip`, partner of `SetMBottom`) |
| `ScriptData.Location.SetMLeft` | Models/NFS/Nfs.cs:154-171 | `left` becomes the tile count of the value in the X block, or 0 outside it (for any tile length, since only an in-block value is divided); announces `["Left", "mLeft"]` in the block and `["Left"]` outside it; afterwards `mLeft` is in the block, and for an in-block value `mLeft <= value < mLeft + tileLength`; writing back the current `mLeft` of an in-range `left` leaves `left` unchanged; only `left` and the log change |
| `ScriptData.Location.SetMTop` | Models/NFS/Nfs.cs:176-193 | same as `SetMLeft` for `top` over the Y block, except that it announces `["Top", "mRight"]` in the block and `["Top"]` outside it |
| `ScriptData.Location.SetMRight` | Models/NFS/Nfs.cs:198-215 | same transform for `right` over the X block; announces only `["mRight"]` in the block and nothing outside it; only `right` and the log change |
| `ScriptData.Location.SetMBottom` | Models/NFS/Nfs.cs:220-237 | same transform for `bottom` over the Y block; announces only `["mBottom"]` in the block and nothing outside it; only `bottom` and the log change |
| `ScriptData.Location.SetDescription` | Models/NFS/Nfs.cs:241-249 | stores the description, announces `"Description"`, changes no other field |
| `ScriptData.Location.SetScripts` | Models/NFS/Nfs.cs:254-262 | stores the script list, announces `"Script"`, changes no other field |
| `ScriptData.Location.OnPropertyChanged` | Models/NFS/Nfs.cs:283-286 | appends exactly the given name to the region's event log |
| `ScriptData.PropScriptInfo.constructor` | Models/NFS/Nfs.cs:291-295 | a new prop has id 0, position (0, 0), model id 0, no scripts and an empty event log |
| `ScriptData.PropScriptInfo.SetPropId` | Models/NFS/Nfs.cs:299-307 | stores the prop id, announces `"PropId"`, changes no other field |
| `ScriptData.PropScriptInfo.SetX` | Models/NFS/Nfs.cs:310-318 | stores the local x, announces `"X"`, changes no other field |
| `ScriptData.PropScriptInfo.SetY` | Models/NFS/Nfs.cs:321-329 | stores the local y, announces `"Y"`, changes no other field |
| `ScriptData.PropScriptInfo.MX` | Models/NFS/Nfs.cs:335 | reads `blockX * 16128 + x`; for `x` in `[0, 16128]` it lies in the X block and writing it back stores `x` again (`Coordinates.PointRoundTrip`, partner of `SetMX`) |
| `ScriptData.PropScriptInfo.MY` | Models/NFS/Nfs.cs:356 | reads `blockY * 16128 + y`; for `y` in `[0, 16128]` it lies in the Y block and writing it back stores `y` again (`Coordinates.PointRoundTrip`, partner of `SetMY`) |
| `ScriptData.PropScriptInfo.SetMX` | Models/NFS/Nfs.cs:333-350 | `x` becomes the exact offset of the value from the X block origin, or 0 outside the block; announces `"X"` only in the block; an in-block value reads back exactly; writing back the current `mX` of an `x` in `[0, 16128]` leaves `x` unchanged; only `x` and the log change |
| `ScriptData.PropScriptInfo.SetMY` | Models/NFS/Nfs.cs:354-371 | same as `SetMX` for `y` over the Y block, announcing `"Y"` |
| `ScriptData.PropScriptInfo.SetModelId` | Models/NFS/Nfs.cs:375-383 | stores the model id, announces `"ModelId"`, changes no other field |
| `ScriptData.PropScriptInfo.SetScripts` | Models/NFS/Nfs.cs:388-396 | stores the script list, announces `"Records"`, changes no other field |
| `ScriptData.PropScriptInfo.OnPropertyChanged` | Models/NFS/Nfs.cs:412-415 | appends exactly the given name to the prop's event log |
| `ScriptData.Function.constructor` | Models/NFS/Nfs.cs:422 | a new function has an empty string and an empty event log |
| `ScriptData.Function.SetFunctionString` | Models/NFS/Nfs.cs:426-434 | stores the string, announces `"FunctionString"`, changes nothing else |
| `ScriptData.Function.OnPropertyChanged` | Models/NFS/Nfs.cs:441-444 | appends exactly the given name to the function's event log |

## Left out

- Observer registration and invocation (`PropertyChanged` delegates) are not modelled. The ghost event log stands in for them. An exception thrown by an observer is not modelled either.
- `Location.ToPoints` and `PropScriptInfo.ToPoint` (Models/NFS/Nfs.cs:270-276, 402-405) are left out. They hand points to a screen-projection helper that is not part of this model, and they return floating-point points.
- `ToString` formatting and the property-grid attributes are left out. They are presentation only.
- The `Nfs.Instance` singleton (Models/NFS/Nfs.cs:77, 95) is not modelled. Callers hold the `Nfs` object directly.
- `MapWorker.Instance` and `Global.tileLenght` are not global state here. They become the `BlockContext` parameter.
- The severity-filtered log sink in Modules/XLog.cs is not modelled. It formats text and hands it to the editor window, and it has no data invariants.
- The binary loader and saver of the script file are not part of this model.
- C# 32-bit overflow of `block * 16128 + local * tileLength` is not modelled. Integers are unbounded.
- Prop coordinates are C# `float`. They are modelled as exact `real` values, so IEEE-754 rounding is not captured.
- ScriptData.Location.SetMLeft: requires a positive tile length when the value is in the block. With a zero tile length the code throws on that division; an out-of-block write divides nothing, so the model accepts it with any tile length and stores 0, as the code does. An in-block write with a negative tile length, where C# would store a truncated non-positive quotient, is not modelled.
- ScriptData.Location.SetMTop: the same tile-length precondition and the same gap as `SetMLeft`.
- ScriptData.Location.SetMRight: the same tile-length precondition and the same gap as `SetMLeft`.
- ScriptData.Location.SetMBottom: the same tile-length precondition and the same gap as `SetMLeft`.
- ScriptData.Nfs.GetScriptCount: the model assumes the region list, each region in it and each region's script list are never null. C# accepts `Respawns = null` (Models/NFS/Nfs.cs:55), `Scripts = null` (Models/NFS/Nfs.cs:259) and null entries in the list, and `GetScriptCount` then throws at Models/NFS/Nfs.cs:83 or 85.
- Integer widths are not modelled. The C# `int` fields (edges, `propId`, `version`) and the `short` model id are unbounded integers here.
- The `Scripts`, `Respawns` and `Props` lists are C# list references. The model holds them as sequence values. Editing a list through the reference a getter returns is not modelled; in C# such an edit announces nothing. Sharing one list between two owners is not modelled either.
- Plain property getters are field reads in the model.
