/**
 * Which tools are active, the drawing colour, and the registry of tool classes
 * by name. The module-level globals of the tools manager are the fields of one
 * ToolsManager object. Tool classes are opaque values identified by name.
 */
module Tools {
  import opened Wrappers

  datatype ToolClass = ToolClass(name: string)

  /** An instance of a tool class, as `get_active_tool_instance` would construct it. */
  datatype ToolInstance = ToolInstance(of: ToolClass)

  /** The four category/tool entries reported by `get_active_tools`. */
  datatype ActiveTools = ActiveTools(
    mainCategory: Option<string>,
    mainTool: Option<string>,
    secondaryCategory: Option<string>,
    secondaryTool: Option<string>)

  /** Categories whose tools set the main tool and the active tool class. */
  predicate IsMainCategory(category: string) {
    category in ["Fractal", "Spiro"]
  }

  /** Categories whose tools set the secondary tool only. */
  predicate IsSecondaryCategory(category: string) {
    category in ["Drawing", "Edit"]
  }

  /** No category is both main and secondary, so the dispatch is unambiguous. */
  lemma CategoriesDisjoint(category: string)
    ensures !(IsMainCategory(category) && IsSecondaryCategory(category))
  {
  }

  /** Dictionary lookup: the class registered under `name`, or None. */
  function Lookup(registry: map<string, ToolClass>, name: string): (r: Option<ToolClass>)
    ensures r.Some? <==> name in registry
    ensures r.Some? ==> r.value == registry[name]
  {
    if name in registry then Some(registry[name]) else None
  }

  /** Registering `c` under `n` makes `n` look up to `c` and leaves every other name as it was. */
  lemma LookupAfterRegister(registry: map<string, ToolClass>, n: string, c: ToolClass, m: string)
    ensures Lookup(registry[n := c], m) == if m == n then Some(c) else Lookup(registry, m)
  {
  }

  /** The drawing colour: the set colour if any, else white on the dark theme and black on any other theme. */
  function ColorOrDefault(color: Option<string>, theme: string): (c: string)
    ensures color.Some? ==> c == color.value
    ensures color.None? ==> (c == "white" <==> theme == "dark")
    ensures color.None? ==> (c == "black" <==> theme != "dark")
  {
    match color
    case Some(v) => v
    case None => if theme == "dark" then "white" else "black"
  }

  class ToolsManager {
    var mainCategory: Option<string>
    var mainTool: Option<string>
    var secondaryCategory: Option<string>
    var secondaryTool: Option<string>
    var currentTheme: string
    var color: Option<string>
    var width: int
    var eraser: bool
    var fill: bool
    var activeToolClass: Option<ToolClass>
    var registeredTools: map<string, ToolClass>

    /** The initial values of the module globals. */
    constructor ()
      ensures mainCategory == None && mainTool == None
      ensures secondaryCategory == None && secondaryTool == None
      ensures currentTheme == "dark" && color == Some("white")
      ensures width == 2 && !eraser && !fill
      ensures activeToolClass == None && registeredTools == map[]
    {
      mainCategory, mainTool := None, None;
      secondaryCategory, secondaryTool := None, None;
      currentTheme := "dark";
      color := Some("white");
      width := 2;
      eraser, fill := false, false;
      activeToolClass := None;
      registeredTools := map[];
    }

    /**
     * A main category sets the main entries and the active class (looked up
     * now); a secondary category sets the secondary entries only; any other
     * category changes nothing.
     */
    method SetTools(category: string, tool: string)
      modifies this
      ensures IsMainCategory(category) ==>
        && mainCategory == Some(category) && mainTool == Some(tool)
        && activeToolClass == GetTool(tool)
        && secondaryCategory == old(secondaryCategory) && secondaryTool == old(secondaryTool)
      ensures IsSecondaryCategory(category) ==>
        && secondaryCategory == Some(category) && secondaryTool == Some(tool)
        && mainCategory == old(mainCategory) && mainTool == old(mainTool)
        && activeToolClass == old(activeToolClass)
      ensures !IsMainCategory(category) && !IsSecondaryCategory(category) ==>
        && mainCategory == old(mainCategory) && mainTool == old(mainTool)
        && secondaryCategory == old(secondaryCategory) && secondaryTool == old(secondaryTool)
        && activeToolClass == old(activeToolClass)
      ensures registeredTools == old(registeredTools)
      ensures currentTheme == old(currentTheme) && color == old(color)
      ensures width == old(width) && eraser == old(eraser) && fill == old(fill)
    {
      if IsMainCategory(category) {
        mainCategory := Some(category);
        mainTool := Some(tool);
        activeToolClass := GetTool(tool);
      } else if IsSecondaryCategory(category) {
        secondaryCategory := Some(category);
        secondaryTool := Some(tool);
      }
    }

    /** Exactly the four current category and tool entries. */
    function GetActiveTools(): (r: ActiveTools)
      reads this
      ensures r.mainCategory == mainCategory && r.mainTool == mainTool
      ensures r.secondaryCategory == secondaryCategory && r.secondaryTool == secondaryTool
    {
      ActiveTools(mainCategory, mainTool, secondaryCategory, secondaryTool)
    }

    function CurrentColor(): (c: string)
      reads this
      ensures color.Some? ==> c == color.value
      ensures color.None? ==> (c == "white" <==> currentTheme == "dark")
      ensures color.None? ==> (c == "black" <==> currentTheme != "dark")
    {
      ColorOrDefault(color, currentTheme)
    }

    /** Registers (or re-registers, overwriting) the class for `name`. */
    method RegisterTool(name: string, cls: ToolClass)
      modifies this`registeredTools
      ensures registeredTools == old(registeredTools)[name := cls]
      ensures GetTool(name) == Some(cls)
      ensures forall m :: m != name ==> GetTool(m) == old(GetTool(m))
    {
      registeredTools := registeredTools[name := cls];
    }

    /** The class registered under `name`, or None if none is. */
    function GetTool(name: string): (r: Option<ToolClass>)
      reads this
      ensures r.Some? <==> name in registeredTools
      ensures r.Some? ==> r.value == registeredTools[name]
    {
      Lookup(registeredTools, name)
    }

    /**
     * A new instance of the active class when there is one and it is a tool
     * class (`isBaseTool` stands for the `issubclass` test); otherwise None.
     */
    function GetActiveToolInstance(isBaseTool: ToolClass -> bool): (r: Option<ToolInstance>)
      reads this
      ensures activeToolClass.None? ==> r.None?
      ensures r.Some? <==> activeToolClass.Some? && isBaseTool(activeToolClass.value)
      ensures r.Some? ==> r.value.of == activeToolClass.value
    {
      match activeToolClass
      case Some(cls) => if isBaseTool(cls) then Some(ToolInstance(cls)) else None
      case None => None
    }
  }
}
