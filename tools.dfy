/** The tool dispatcher of `call_LLM`: one function call requested by the
    language model is turned into one tool result, possibly updating the
    session slots (geometry, analysis section, stress results, figures).

    The finite-element library is not defined here. Each library entry
    point is a function of the `Library` value that either produces its
    result or raises, with the exception's message. Library objects are
    opaque handles; changes the library makes inside an object it already
    holds (attaching a mesh or computed properties) are not visible here. */
module Tools {
  import opened Wrappers
  import opened Values
  import Text

  datatype FunctionCall = FunctionCall(name: string, args: Args)

  /** Opaque handles to library objects. */
  datatype Geometry = Geometry(id: nat)
  datatype Section = Section(id: nat)
  datatype StressPost = StressPost(id: nat)
  datatype Figure = Figure(id: nat)
  /** The six minimum and maximum stress values reported after a stress run. */
  datatype StressStats = StressStats(id: nat)

  /** The library calls one tool call can make, each succeeding or raising. */
  datatype Library = Library(
    // a steel-section constructor called by name with the model's arguments
    buildSection: (string, Args) -> Result<Geometry, string>,
    // meshing the geometry with the default element size
    createMesh: Geometry -> Outcome<string>,
    // wrapping the meshed geometry in an analysis section
    newSection: Geometry -> Result<Section, string>,
    // drawing the mesh into a new figure
    plotMesh: Section -> Result<Figure, string>,
    // computing geometric properties; the result is the serialized property mapping
    geometricProperties: (Section, Args) -> Result<string, string>,
    // computing warping properties; the result is the serialized property mapping
    warpingProperties: (Section, Args) -> Result<string, string>,
    calculateStress: (Section, Args) -> Result<StressPost, string>,
    // reading the minima and maxima out of the stress results
    summarizeStress: StressPost -> Result<StressStats, string>,
    // drawing a stress plot into a new figure
    plotStress: (StressPost, Args) -> Result<Figure, string>
  )

  /** What the lookup of a called name in the module's globals finds:
      a function defined among the library's steel-section constructors,
      some other global, no global at all, or a global that has no
      `__module__` attribute (the lookup then raises). */
  datatype NameKind = SteelSection | OtherGlobal | NotGlobal | NoModuleAttribute

  /** The handler-specific payload of a successful tool result. */
  datatype Details =
    | MeshDetails(nextSteps: string)
    | PropertyDetails(key: string, json: string, nextSteps: string)
    | StressDetails(stats: StressStats, nextSteps: string)
    | PlotDetails(description: string, caption: string)

  /** The tool result sent back to the language model: status "success" or "error",
      always with a message: `Ok` is status "success", `Err` status "error". */
  datatype ToolResult = Ok(message: string, details: Details) | Err(message: string)

  /** The session slots a tool call may change. */
  datatype Slots = Slots(geom: Option<Geometry>, sec: Option<Section>, stresses: Option<StressPost>, figures: seq<Figure>)

  datatype Handled = Handled(slots: Slots, result: ToolResult)

  /** Which of the two property computations is requested. */
  datatype PropertyRun = Geometric | Warping

  const ELEMENT_SIZE: nat := 10
  const MATERIAL_NAME := "S235"

  const GEOMETRIC_PROPERTIES := "calculate_geometric_properties"
  const WARPING_PROPERTIES := "calculate_warping_properties"
  const CALCULATE_STRESS := "calculate_stress"
  const PLOT_STRESS := "plot_stress"

  const MESH_MESSAGE := "Geometry of the section generated and meshed successfully. A default element size of "
                        + Text.NatToString(ELEMENT_SIZE) + " mm and Material " + MATERIAL_NAME
                        + " was used. A plot was generated showing the section mesh."
  const MESH_NEXT := "Would you like to evaluate the section properties or perform a stress analysis?"
  const STRESS_MESSAGE := "Section stresses have been calculated successfully."
  const STRESS_NEXT := "Would you like to view the stress results? I could plot the Axial, Shear or von Mises stresses for you."
  const NO_STRESSES := "Stresses have not been calculated yet. Please calculate stresses before plotting."
  const PLOT_DESCRIPTION := "A plot of the stresses over the section."
  const PLOT_CAPTION := "Here's the section stress plot."

  function PropertyName(run: PropertyRun): string
  {
    if run == Geometric then GEOMETRIC_PROPERTIES else WARPING_PROPERTIES
  }

  function PropertyMessage(run: PropertyRun): string
  {
    if run == Geometric then "Geometric section properties have been calculated successfully."
    else "Warping properties of the section have been calculated successfully."
  }

  function PropertyKey(run: PropertyRun): string
  {
    if run == Geometric then "section_properties" else "warping_properties"
  }

  function PropertyNext(run: PropertyRun): string
  {
    if run == Geometric then "Would you like to calculate warping properties or perform a stress analysis?"
    else "Would you like to continue with a stress analysis?"
  }

  /** The library call behind one property computation. */
  function ComputeProperties(run: PropertyRun, lib: Library, sec: Section, args: Args): Result<string, string>
  {
    if run == Geometric then lib.geometricProperties(sec, args) else lib.warpingProperties(sec, args)
  }

  /** The result every handler gives when the library (or Python) raises. */
  function ErrorCalling(name: string, message: string): ToolResult
  {
    Err("Error calling " + name + ": " + message)
  }

  /** The default result for a name no handler accepts. */
  function NotAvailable(name: string): ToolResult
  {
    Err("Tool '" + name + "' is not implemented or not available.")
  }

  /** The message of the AttributeError raised by a method call on None. */
  function NoneAttribute(attribute: string): string
  {
    "'NoneType' object has no attribute '" + attribute + "'"
  }

  predicate IsHandlerName(name: string)
  {
    name == GEOMETRIC_PROPERTIES || name == WARPING_PROPERTIES || name == CALCULATE_STRESS || name == PLOT_STRESS
  }

  /** A steel-section constructor: build the geometry, mesh it, wrap it in a
      section and plot its mesh. `geom` is replaced as soon as the
      constructor returns and `sec` as soon as the section exists, so a later
      failure leaves them replaced; the figure is added only on success. */
  function SteelSectionCall(lib: Library, s: Slots, call: FunctionCall): (h: Handled)
    ensures h.slots.stresses == s.stresses
    ensures var built := lib.buildSection(call.name, call.args);
            built.Failure? ==> h == Handled(s, ErrorCalling(call.name, built.error))
    ensures var built := lib.buildSection(call.name, call.args);
            built.Success? ==>
              && h.slots.geom == Some(built.value)
              && h.slots.sec == (if lib.createMesh(built.value).Pass? && lib.newSection(built.value).Success?
                                 then Some(lib.newSection(built.value).value) else s.sec)
    ensures var built := lib.buildSection(call.name, call.args);
            h.result.Ok? <==>
              && built.Success?
              && lib.createMesh(built.value).Pass?
              && lib.newSection(built.value).Success?
              && lib.plotMesh(lib.newSection(built.value).value).Success?
    ensures h.result.Ok? ==>
              && h.result == Ok(MESH_MESSAGE, MeshDetails(MESH_NEXT))
              && h.slots.sec.Some?
              && lib.plotMesh(h.slots.sec.value).Success?
              && h.slots.figures == s.figures + [lib.plotMesh(h.slots.sec.value).value]
    ensures var built := lib.buildSection(call.name, call.args);
            built.Success? && lib.createMesh(built.value).Fail? ==>
              h.result == ErrorCalling(call.name, lib.createMesh(built.value).error)
    ensures var built := lib.buildSection(call.name, call.args);
            built.Success? && lib.createMesh(built.value).Pass? && lib.newSection(built.value).Failure? ==>
              h.result == ErrorCalling(call.name, lib.newSection(built.value).error)
    ensures var built := lib.buildSection(call.name, call.args);
            built.Success? && lib.createMesh(built.value).Pass? && lib.newSection(built.value).Success? &&
            lib.plotMesh(lib.newSection(built.value).value).Failure? ==>
              h.result == ErrorCalling(call.name, lib.plotMesh(lib.newSection(built.value).value).error)
    ensures h.result.Err? ==> h.slots.figures == s.figures && "Error calling " + call.name + ": " <= h.result.message
  {
    match lib.buildSection(call.name, call.args)
    case Failure(e) => Handled(s, ErrorCalling(call.name, e))
    case Success(geom) =>
      var s1 := s.(geom := Some(geom));
      match lib.createMesh(geom)
      case Fail(e) => Handled(s1, ErrorCalling(call.name, e))
      case Pass =>
        match lib.newSection(geom)
        case Failure(e) => Handled(s1, ErrorCalling(call.name, e))
        case Success(sec) =>
          var s2 := s1.(sec := Some(sec));
          match lib.plotMesh(sec)
          case Failure(e) => Handled(s2, ErrorCalling(call.name, e))
          case Success(fig) => Handled(s2.(figures := s2.figures + [fig]), Ok(MESH_MESSAGE, MeshDetails(MESH_NEXT)))
  }

  /** A property computation on the current section. Without a section the
      method call on None raises; the slots never change. */
  function PropertiesCall(run: PropertyRun, lib: Library, s: Slots, call: FunctionCall): (h: Handled)
    ensures h.slots == s
    ensures s.sec.None? ==> h.result == ErrorCalling(call.name, NoneAttribute(PropertyName(run)))
    ensures h.result.Ok? <==> s.sec.Some? && ComputeProperties(run, lib, s.sec.value, call.args).Success?
    ensures s.sec.Some? && ComputeProperties(run, lib, s.sec.value, call.args).Failure? ==>
              h.result == ErrorCalling(call.name, ComputeProperties(run, lib, s.sec.value, call.args).error)
    ensures h.result.Ok? ==>
              h.result == Ok(PropertyMessage(run),
                             PropertyDetails(PropertyKey(run), ComputeProperties(run, lib, s.sec.value, call.args).value,
                                             PropertyNext(run)))
  {
    match s.sec
    case None => Handled(s, ErrorCalling(call.name, NoneAttribute(PropertyName(run))))
    case Some(sec) =>
      match ComputeProperties(run, lib, sec, call.args)
      case Failure(e) => Handled(s, ErrorCalling(call.name, e))
      case Success(json) => Handled(s, Ok(PropertyMessage(run), PropertyDetails(PropertyKey(run), json, PropertyNext(run))))
  }

  /** A stress computation. `stresses` is replaced as soon as the library
      returns, before the summary is read, so a failing summary leaves the
      new stresses in place. */
  function StressCall(lib: Library, s: Slots, call: FunctionCall): (h: Handled)
    ensures h.slots.geom == s.geom && h.slots.sec == s.sec && h.slots.figures == s.figures
    ensures s.sec.None? ==> h == Handled(s, ErrorCalling(call.name, NoneAttribute(CALCULATE_STRESS)))
    ensures h.slots.stresses ==
              if s.sec.Some? && lib.calculateStress(s.sec.value, call.args).Success?
              then Some(lib.calculateStress(s.sec.value, call.args).value) else s.stresses
    ensures h.result.Ok? <==>
              s.sec.Some? && lib.calculateStress(s.sec.value, call.args).Success? &&
              lib.summarizeStress(h.slots.stresses.value).Success?
    ensures h.result.Ok? ==>
              h.result == Ok(STRESS_MESSAGE, StressDetails(lib.summarizeStress(h.slots.stresses.value).value, STRESS_NEXT))
    ensures s.sec.Some? && lib.calculateStress(s.sec.value, call.args).Failure? ==>
              h.result == ErrorCalling(call.name, lib.calculateStress(s.sec.value, call.args).error)
    ensures s.sec.Some? && lib.calculateStress(s.sec.value, call.args).Success? &&
            lib.summarizeStress(h.slots.stresses.value).Failure? ==>
              h.result == ErrorCalling(call.name, lib.summarizeStress(h.slots.stresses.value).error)
  {
    match s.sec
    case None => Handled(s, ErrorCalling(call.name, NoneAttribute(CALCULATE_STRESS)))
    case Some(sec) =>
      match lib.calculateStress(sec, call.args)
      case Failure(e) => Handled(s, ErrorCalling(call.name, e))
      case Success(stresses) =>
        var s1 := s.(stresses := Some(stresses));
        match lib.summarizeStress(stresses)
        case Failure(e) => Handled(s1, ErrorCalling(call.name, e))
        case Success(stats) => Handled(s1, Ok(STRESS_MESSAGE, StressDetails(stats, STRESS_NEXT)))
  }

  /** A stress plot: refused with a structured error until stresses exist;
      otherwise one new figure on success and none on failure. */
  function PlotCall(lib: Library, s: Slots, call: FunctionCall): (h: Handled)
    ensures h.slots.geom == s.geom && h.slots.sec == s.sec && h.slots.stresses == s.stresses
    ensures s.stresses.None? ==> h == Handled(s, Err(NO_STRESSES))
    ensures h.result.Ok? <==> s.stresses.Some? && lib.plotStress(s.stresses.value, call.args).Success?
    ensures h.result.Ok? ==>
              && h.slots.figures == s.figures + [lib.plotStress(s.stresses.value, call.args).value]
              && h.result.message == "Plot of " + ToStr(Get(call.args, "plot_type")) + " stresses generated."
              && h.result.details == PlotDetails(PLOT_DESCRIPTION, PLOT_CAPTION)
    ensures s.stresses.Some? && lib.plotStress(s.stresses.value, call.args).Failure? ==>
              h.result == ErrorCalling(call.name, lib.plotStress(s.stresses.value, call.args).error)
    ensures h.result.Err? ==> h.slots.figures == s.figures
  {
    match s.stresses
    case None => Handled(s, Err(NO_STRESSES))
    case Some(stresses) =>
      match lib.plotStress(stresses, call.args)
      case Failure(e) => Handled(s, ErrorCalling(call.name, e))
      case Success(fig) =>
        Handled(s.(figures := s.figures + [fig]),
                Ok("Plot of " + ToStr(Get(call.args, "plot_type")) + " stresses generated.",
                        PlotDetails(PLOT_DESCRIPTION, PLOT_CAPTION)))
  }

  /** One function call: the globals lookup (which raises, giving None, when
      the name's global has no `__module__`), then the handler chosen by the
      name. A name no handler accepts gets the default error and changes no
      slot. An error result never adds a figure, and at most one figure is
      added per call. */
  function Dispatch(classify: string -> NameKind, lib: Library, s: Slots, call: FunctionCall): (r: Option<Handled>)
    ensures r.None? <==> classify(call.name) == NoModuleAttribute
    ensures classify(call.name) == SteelSection ==> r == Some(SteelSectionCall(lib, s, call))
    ensures classify(call.name) != SteelSection && classify(call.name) != NoModuleAttribute ==>
              && (call.name == GEOMETRIC_PROPERTIES ==> r == Some(PropertiesCall(Geometric, lib, s, call)))
              && (call.name == WARPING_PROPERTIES ==> r == Some(PropertiesCall(Warping, lib, s, call)))
              && (call.name == CALCULATE_STRESS ==> r == Some(StressCall(lib, s, call)))
              && (call.name == PLOT_STRESS ==> r == Some(PlotCall(lib, s, call)))
    ensures r.Some? && classify(call.name) != SteelSection && !IsHandlerName(call.name) ==>
              r.value == Handled(s, NotAvailable(call.name))
    ensures r.Some? && classify(call.name) != SteelSection && call.name == PLOT_STRESS && s.stresses.None? ==>
              r.value == Handled(s, Err(NO_STRESSES))
    ensures r.Some? && r.value.result.Err? ==> r.value.slots.figures == s.figures
    ensures r.Some? && r.value.result.Ok? ==> |r.value.slots.figures| == |s.figures| + 1 || r.value.slots.figures == s.figures
    ensures r.Some? ==> r.value.slots.figures[..|s.figures|] == s.figures
  {
    var kind := classify(call.name);
    if kind == NoModuleAttribute then None
    else if kind == SteelSection then Some(SteelSectionCall(lib, s, call))
    else if call.name == GEOMETRIC_PROPERTIES then Some(PropertiesCall(Geometric, lib, s, call))
    else if call.name == WARPING_PROPERTIES then Some(PropertiesCall(Warping, lib, s, call))
    else if call.name == CALCULATE_STRESS then Some(StressCall(lib, s, call))
    else if call.name == PLOT_STRESS then Some(PlotCall(lib, s, call))
    else Some(Handled(s, NotAvailable(call.name)))
  }
}
