# Fractal Spiro Paint: registry, selection, theme, tool state and polyline tool

A Dafny model of the small stateful core of a Tkinter drawing program:

- **Shape registry** (`Shapes`, class `ShapeManager`): a dictionary from IDs
  `"shape_1"`, `"shape_2"`, ... to shape records. The IDs come from a counter
  that only grows. Python keeps dictionary insertion order, so the model keeps
  the keys in an `order` sequence beside the `shapes` map. `Valid()` says the
  registry holds exactly `shape_1 .. shape_counter`, in that order.
- **Rectangle selection** (`Selection`, class `SelectionTool`): two clicks give
  an inclusive, axis-aligned box. A shape is inside when every one of its points
  is in the box; a shape with no points is inside. The selection is the items
  of the inside shapes, concatenated in registry order. While the mouse moves,
  every item of every shape is recoloured.
- **Theme** (`Theme`, class `ThemeManager`): the dark and light palettes, the
  current palette and mode, and colour lookup with magenta `#FF00FF` as the
  colour for unknown keys.
- **Tool state** (`Tools`, class `ToolsManager`): the main and secondary
  category and tool, the active tool class, the drawing colour and the registry
  of tool classes by name.
- **Polyline tool** (`Polyline`, class `PolylineTool`): clicks add points and
  segments, Return finishes, and 'c' closes a polyline of more than two points.
  A finished polyline is registered, then the point and segment lists are reset.

Module-level globals of `theme_manager.py` and `tools_manager.py` are the fields
of one object each. The Tk canvas is a `Canvas` object. It hands out fresh
integer item IDs from a counter (`CreateLine`) and logs `itemconfig(fill=...)`
calls in order (`SetFill`). Drawing itself is not modelled. Coordinates are
unbounded integers, as Python's are. Colours are strings. Tool classes are
opaque values identified by name.

The polyline tool calls `shape_manager.add_shape(...)`, but the registry has no
operation of that name. The model sends the call to a `ShapeSink` that logs each
`Registration`. The selection tool reads `shape['original_color']`, which the
registry never stores. The model takes that colour as a function parameter
`original`.

Two widgets dispatch clicks to the tools. The core controller
(`src/core/canvas_controller.py:56-59`) keeps drawing as long as the tool
returns true, so every polyline click after the first goes to
`on_second_click`, and one segment per pair of consecutive points holds there.
The UI canvas widget (`src/ui/canvas_widget.py:84-89`) instead alternates
`on_first_click` and `on_second_click` regardless of the results, so a third
click adds a point without a segment. The model covers both call paths: the
balance property (`Balanced()`) is not a class invariant, `OnSecondClick` and
`OnKeyboard` preserve it, and `OnFirstClick` re-establishes it only from an
empty list.

The contracts refer to a few reference definitions that are plain functions
without contracts of their own: `Selection.SelectedItems` (the items of the
inside shapes, in order), `Selection.DragFills` (the fill commands of a drag
preview) and `Polyline.FinishedPoints` (the points a finished polyline is
registered with). Their properties are the lemmas listed below.

## Model

| member | source | states |
|---|---|---|
| `Decimal.NatToString` | src/core/shape_manager.py:49 | the numeral has at least one digit, only digits, and no leading zero |
| `Decimal.ParseNatToString` | src/core/shape_manager.py:49 | parsing the numeral gives back the number |
| `Decimal.NatToStringInjective` | src/core/shape_manager.py:49 | two numbers have the same numeral iff they are equal |
| `Shapes.ShapeId` | src/core/shape_manager.py:41-49 | every shape ID starts with "shape_" |
| `Shapes.ShapeIdInjective` | src/core/shape_manager.py:41-49 | two counter values give the same ID iff they are equal, so IDs from successive calls are pairwise distinct |
| `Shapes.FilterByKind` | src/core/shape_manager.py:147 | the result holds exactly the shapes of the input whose type is t, and is no longer than the input |
| `Shapes.FilterByKindAppend` | src/core/shape_manager.py:147 | filtering distributes over concatenation, so it keeps the shapes' order |
| `Shapes.ShapeManager.constructor` | src/core/shape_manager.py:31-36 | a new registry is valid, with no shapes and counter 0 |
| `Shapes.ShapeManager.NewShapeId` | src/core/shape_manager.py:41-49 | the counter grows by exactly 1, and the result is "shape_" + the new counter, which is not yet a key |
| `Shapes.ShapeManager.Register` | src/core/shape_manager.py:54-111 | exactly one new entry under the fresh ID, all earlier entries unchanged; the new shape is appended to the insertion-ordered list and to the by-type list of its type |
| `Shapes.ShapeManager.AddLine` | src/core/shape_manager.py:54-71 | one new entry of type "line" with the given points and items and no closed field; the entry is appended to the list of all shapes |
| `Shapes.ShapeManager.AddPolyline` | src/core/shape_manager.py:73-92 | one new entry of type "polyline" with the given points and items and the closed flag, which defaults to false |
| `Shapes.ShapeManager.AddPolygon` | src/core/shape_manager.py:94-111 | one new entry of type "polygon" with the given points and items and no closed field |
| `Shapes.ShapeManager.GetShape` | src/core/shape_manager.py:116-126 | the stored entry exactly for IDs shape_1 .. shape_counter, None for every other ID |
| `Shapes.ShapeManager.GetAllShapes` | src/core/shape_manager.py:128-135 | one record per add, in insertion order: position k-1 holds the shape stored under shape_k |
| `Shapes.ShapeManager.GetShapesByType` | src/core/shape_manager.py:137-147 | a stored shape is in the result iff its type is t |
| `Theme.Palette` | src/core/theme_manager.py:50-54 | "dark" selects the dark palette; every other mode selects the light palette |
| `Theme.Lookup` | src/core/theme_manager.py:56-58 | the palette's entry for a known key, magenta for an unknown key |
| `Theme.ThemesShareKeys` | src/core/theme_manager.py:10-42 | both palettes define the same 14 keys |
| `Theme.ErrorColorIffUnknown` | src/core/theme_manager.py:10-58 | in either theme a lookup gives magenta iff the key is unknown, since no palette uses magenta |
| `Theme.LookupIsHexColor` | src/core/theme_manager.py:10-58 | every colour a lookup can give, magenta included, is an upper-case "#RRGGBB" string |
| `Theme.ThemeManager.constructor` | src/core/theme_manager.py:47-48 | initially mode "dark" with the dark palette |
| `Theme.ThemeManager.SetTheme` | src/core/theme_manager.py:50-54 | the mode is recorded as given; the dark palette for "dark", the light palette otherwise |
| `Theme.ThemeManager.GetColor` | src/core/theme_manager.py:56-58 | the current palette's colour for one of the 14 keys, magenta for any other key, and always a "#RRGGBB" colour |
| `Theme.ThemeManager.GetCurrentMode` | src/core/theme_manager.py:60-62 | exactly the last mode set (SetTheme records it as given), and that mode selects the current palette |
| `Tools.CategoriesDisjoint` | src/core/tools_manager.py:33-39 | no category is both a main and a secondary category |
| `Tools.Lookup` | src/core/tools_manager.py:90-92 | a class exactly for registered names, and then the registered one |
| `Tools.LookupAfterRegister` | src/core/tools_manager.py:82-92 | after registering c under n, n looks up to c and every other name looks up as before |
| `Tools.ColorOrDefault` | src/core/tools_manager.py:61-65 | the set colour when there is one; otherwise "white" iff the theme is "dark", and "black" for any other theme |
| `Tools.ToolsManager.constructor` | src/core/tools_manager.py:13-22 | the initial globals: no categories or tools, theme "dark", colour "white", width 2, eraser and fill off, no active class, empty registry |
| `Tools.ToolsManager.SetTools` | src/core/tools_manager.py:27-39 | "Fractal"/"Spiro" set the main fields and the active class as looked up now; "Drawing"/"Edit" set only the secondary fields; any other category changes nothing |
| `Tools.ToolsManager.GetActiveTools` | src/core/tools_manager.py:41-47 | exactly the four current category and tool fields |
| `Tools.ToolsManager.CurrentColor` | src/core/tools_manager.py:61-65 | the set colour when there is one; otherwise "white" iff the theme is "dark", and "black" iff it is any other theme |
| `Tools.ToolsManager.RegisterTool` | src/core/tools_manager.py:82-88 | afterwards the name gives the class, overwriting any earlier one; other names are unaffected |
| `Tools.ToolsManager.GetTool` | src/core/tools_manager.py:90-92 | the registered class for a registered name, None otherwise |
| `Tools.ToolsManager.GetActiveToolInstance` | src/core/tools_manager.py:94-102 | None when there is no active class; an instance exactly when the active class passes the tool-class test |
| `Selection.BoxOf` | src/tools/selection/selection_tool.py:112-117 | the min/max box: each lower bound is at most its upper bound, and the bounds are the corners' coordinates |
| `Selection.BoxOfSymmetric` | src/tools/selection/selection_tool.py:112-117 | swapping the two click positions gives the same box |
| `Selection.SelectionSymmetric` | src/tools/selection/selection_tool.py:112-117 | swapping the two click positions selects the same items |
| `Selection.InBoxOfIffBetween` | src/tools/selection/selection_tool.py:116-127 | a point is in the box iff each coordinate lies between the corners' coordinates, ends included |
| `Selection.IsInside` | src/tools/selection/selection_tool.py:122-129 | the scan with early exit is true iff every point of the shape is in the box |
| `Selection.PointlessShapeSelected` | src/tools/selection/selection_tool.py:122-131 | a shape without points counts as inside, so all its items are selected |
| `Selection.SelectedItemsAppend` | src/tools/selection/selection_tool.py:119-131 | the selection of a concatenation is the concatenation of the selections, so items follow registry order |
| `Selection.SelectedItemsMember` | src/tools/selection/selection_tool.py:119-131 | an item is selected iff some shape that lies in the box has it |
| `Selection.FillAll` | src/tools/selection/selection_tool.py:133-134 | one fill per item, in item order, all in the given colour |
| `Selection.DragFillsAt` | src/tools/selection/selection_tool.py:93-102 | the drag recolouring issues exactly one fill per item of every shape, the preview colour iff that shape is inside, else the shape's original colour |
| `Selection.DragFillsLength` | src/tools/selection/selection_tool.py:93-102 | the number of fills is the total number of items |
| `Selection.SelectInside` | src/tools/selection/selection_tool.py:119-131 | the selection loop collects exactly the items of the shapes inside the box, in registry order |
| `Selection.FillItems` | src/tools/selection/selection_tool.py:133-134 | the canvas gets one fill per item, in order, and no other change: its segments and next item ID are as before |
| `Selection.PaintPreview` | src/tools/selection/selection_tool.py:93-102 | the canvas gets the drag fills for the shapes, in registry order; its segments and next item ID are as before |
| `Selection.SelectionTool.constructor` | src/tools/selection/selection_tool.py:35-47 | no first corner and an empty selection |
| `Selection.SelectionTool.OnFirstClick` | src/tools/selection/selection_tool.py:52-61 | the first corner is the click position; returns true |
| `Selection.SelectionTool.OnDrag` | src/tools/selection/selection_tool.py:63-102 | without a first corner nothing happens; otherwise the canvas gets the drag fills for the current box and the theme's preview colour; no segment is added and the next item ID is unchanged |
| `Selection.SelectionTool.OnSecondClick` | src/tools/selection/selection_tool.py:104-138 | the selection is reset, then it is exactly the items of the inside shapes in registry order; each is filled with the selection colour, and no segment or item ID is added; returns false |
| `Selection.SelectionTool.OnKeyboard` | src/tools/selection/selection_tool.py:143-159 | Escape clears the first corner and returns false; any other key changes nothing and returns true |
| `Polyline.FinishedPointsShape` | src/tools/fractal/polyline_tool.py:106-122 | a closed polyline has the first point re-appended, so it ends where it starts; an open one keeps exactly the clicked points |
| `Polyline.ShapeSink.AddShape` | src/tools/fractal/polyline_tool.py:133-140 | the registration is appended to the log |
| `Polyline.PolylineTool.constructor` | src/tools/fractal/polyline_tool.py:35-52 | empty point and segment lists; default and preview colours taken from the theme; line width 2 |
| `Polyline.PolylineTool.OnFirstClick` | src/tools/fractal/polyline_tool.py:57-61 | exactly one point appended, segment IDs unchanged; returns true |
| `Polyline.PolylineTool.OnSecondClick` | src/tools/fractal/polyline_tool.py:77-94 | with no points nothing changes and None is returned; otherwise one fresh segment from the last point is drawn, its ID and the point are appended, and true is returned; preserves one segment per pair of consecutive points |
| `Polyline.PolylineTool.OnKeyboard` | src/tools/fractal/polyline_tool.py:99-125 | no points, or a key other than Return and 'c': nothing changes. 'c' with more than two points draws the closing segment, appends its ID and the first point, and registers closed=true. Return, or 'c' with at most two points, registers closed=false. Always returns false |
| `Polyline.PolylineTool.FinishPolyline` | src/tools/fractal/polyline_tool.py:130-142 | the registration carries the lists as they were before the reset; both lists are empty afterwards |
| `Canvas.Canvas.CreateLine` | src/tools/fractal/polyline_tool.py:84-90 | the new item ID was not in use, and the canvas records the segment under it |
| `Canvas.Canvas.SetFill` | src/tools/selection/selection_tool.py:102 | the fill is appended to the log of fills |

## Left out

- The fractal substitution engine and the spirograph sampler are not part of this model. Their generator files (`src/tools/spiro/spiro_drawer.py`, `src/fractal/fractal_drawer.py`) have only `pass` bodies. The working Koch code in `src/tools/fractal/fractal_drawer.py` is floating-point numpy code that draws straight to the canvas.
- Floating-point geometry: polygon vertices (cos/sin), circle and polygon radii (sqrt). These are not modelled.
- Drawing: the dashed preview rectangle and preview line, `_clear_preview`, line widths, tags, dash patterns, and the `width=3` given to selected items. The canvas model only records segments and fill colours.
- `PolylineTool.on_drag` is not modelled; it only draws the preview line.
- Debug `print` calls are not modelled.
- `Selection.SelectionTool.OnKeyboard`: the Return branch with a non-empty selection calls `self.app.on_shape_selected`, but `app` is never set, so the call would raise. The requires clause excludes that case rather than modelling the exception.
- `Selection.SelectionTool.OnSecondClick`: requires a first corner. Without one, `x1, y1 = self.start_point` would raise; the canvas widget only calls it after a first click.
- `Shapes.ShapeManager.GetShape`: returns a value. In Python the caller gets the stored dictionary itself and can mutate the registry through it; that aliasing is not modelled.
- Shape records are Python dictionaries with arbitrary keys. The model gives them the fields the registry writes: type, points, items, and closed for polylines.
- `Tools.ToolsManager.GetActiveToolInstance`: the `issubclass` test and the instantiation are reflection. The test is a predicate parameter, and an instance is identified only by its class.
- The one-line accessors `current_main_category`, `current_main_tool`, `current_secondary_tool`, `current_width`, `is_eraser_active` and `is_fill_active` only read a field. They are the fields of `ToolsManager` and get no functions of their own.
- The theme-change observers in `src/core/theme_service.py` only call foreign callbacks; they are not modelled.
- The UI modules (`src/ui/*`, `src/core/app.py`, `src/core/canvas_controller.py`, `src/main.py`), the popups in the polygon and circle tools, and the superseded or broken modules (`src/fractal/*`, `src/ui/theme_manager.py`, `src/ui/tools_manager.py`, `src/tools/fractal/fractal_tools.py`, `src/tools/fractal/line_tool.py`) are not part of this model.
- Theme modes are typed `Literal["dark", "light"]` but nothing enforces that at run time, so the model accepts any string. Any mode other than "dark" selects the light palette.
