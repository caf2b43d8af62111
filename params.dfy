/** The parameter properties of `Layout` in src/layout.py: each algorithm
    parameter is read from the layout's variables dict with a fixed default,
    and grouped into the keyword dict one algorithm family receives. */
module LayoutParams {
  import opened Common

  /** A layout's `variables` dict. */
  type Variables = map<string, Num>

  /** `variables.get(key, default)`. */
  function Get(vars: Variables, key: string, default: Num): (v: Num)
    ensures key in vars ==> v == vars[key]
    ensures key !in vars ==> v == default
  {
    if key in vars then vars[key] else default
  }

  /** The spring layout's optimal distance: unset (None) unless a positive
      `opt_dist` is given. */
  function OptDist(vars: Variables): (r: Option<real>)
    ensures r.Some? <==> "opt_dist" in vars && ToReal(vars["opt_dist"]) > 0.0
    ensures r.Some? ==> r.value == ToReal(vars["opt_dist"])
  {
    var d := ToReal(Get(vars, "opt_dist", IntNum(0)));
    if d <= 0.0 then None else Some(d)
  }

  function Iterations(vars: Variables): int { ToInt(Get(vars, "iterations", IntNum(50))) }
  function Threshold(vars: Variables): real { ToReal(Get(vars, "threshold", FloatNum(0.0001))) }
  function Prplxty(vars: Variables): real { ToReal(Get(vars, "prplxty", FloatNum(0.5))) }
  function Density(vars: Variables): real { ToReal(Get(vars, "density", IntNum(12))) }
  function LRate(vars: Variables): real { ToReal(Get(vars, "l_rate", IntNum(200))) }
  function Steps(vars: Variables): int { ToInt(Get(vars, "steps", IntNum(250))) }
  function NNeighbors(vars: Variables): int { ToInt(Get(vars, "n_neighbors", IntNum(10))) }
  function Spread(vars: Variables): real { ToReal(Get(vars, "spread", FloatNum(1.0))) }
  function MinDist(vars: Variables): real { ToReal(Get(vars, "min_dist", FloatNum(0.1))) }

  function OptParam(o: Option<real>): Param
  {
    match o
    case None => NoneParam
    case Some(r) => FloatParam(r)
  }

  /** `spring_variables`: the keyword arguments of `nx.spring_layout`. */
  function SpringVariables(vars: Variables): (r: map<string, Param>)
    ensures r.Keys == {"k", "iterations", "threshold"}
  {
    map["k" := OptParam(OptDist(vars)), "iterations" := IntParam(Iterations(vars)),
        "threshold" := FloatParam(Threshold(vars))]
  }

  /** `tsne_variables`: the keyword arguments of the cartoGRAPHs tsne layouts. */
  function TsneVariables(vars: Variables): (r: map<string, Param>)
    ensures r.Keys == {"prplxty", "density", "l_rate", "steps"}
  {
    map["prplxty" := FloatParam(Prplxty(vars)), "density" := FloatParam(Density(vars)),
        "l_rate" := FloatParam(LRate(vars)), "steps" := IntParam(Steps(vars))]
  }

  /** `umap_variables`: the keyword arguments of the cartoGRAPHs umap layouts. */
  function UmapVariables(vars: Variables): (r: map<string, Param>)
    ensures r.Keys == {"n_neighbors", "spread", "min_dist"}
  {
    map["n_neighbors" := IntParam(NNeighbors(vars)), "spread" := FloatParam(Spread(vars)),
        "min_dist" := FloatParam(MinDist(vars))]
  }

  /** With nothing supplied every parameter takes its default. */
  lemma DefaultVariables()
    ensures SpringVariables(map[]) == map["k" := NoneParam, "iterations" := IntParam(50), "threshold" := FloatParam(0.0001)]
    ensures TsneVariables(map[]) == map["prplxty" := FloatParam(0.5), "density" := FloatParam(12.0),
                                        "l_rate" := FloatParam(200.0), "steps" := IntParam(250)]
    ensures UmapVariables(map[]) == map["n_neighbors" := IntParam(10), "spread" := FloatParam(1.0), "min_dist" := FloatParam(0.1)]
  {
  }

  /** A supplied value overrides the default: floats pass through `float()`,
      counts through `int()`, which truncates toward zero. */
  lemma SuppliedVariables(vars: Variables)
    ensures "iterations" in vars ==> SpringVariables(vars)["iterations"] == IntParam(ToInt(vars["iterations"]))
    ensures "threshold" in vars ==> SpringVariables(vars)["threshold"] == FloatParam(ToReal(vars["threshold"]))
    ensures "prplxty" in vars ==> TsneVariables(vars)["prplxty"] == FloatParam(ToReal(vars["prplxty"]))
    ensures "density" in vars ==> TsneVariables(vars)["density"] == FloatParam(ToReal(vars["density"]))
    ensures "l_rate" in vars ==> TsneVariables(vars)["l_rate"] == FloatParam(ToReal(vars["l_rate"]))
    ensures "steps" in vars ==> TsneVariables(vars)["steps"] == IntParam(ToInt(vars["steps"]))
    ensures "n_neighbors" in vars ==> UmapVariables(vars)["n_neighbors"] == IntParam(ToInt(vars["n_neighbors"]))
    ensures "spread" in vars ==> UmapVariables(vars)["spread"] == FloatParam(ToReal(vars["spread"]))
    ensures "min_dist" in vars ==> UmapVariables(vars)["min_dist"] == FloatParam(ToReal(vars["min_dist"]))
  {
  }
}
