/** `upload_vrnetz` of src/routes.py: checks the uploaded VRNetz file,
    parses it as JSON, decodes the numbered `layout_<i>_<field>` form fields
    into the lists of layout names, algorithms and variables dicts, sets the
    tags, and hands everything to the upload workflow. The flask request is
    given as its form dict and its list of files; the JSON parser and
    Python's `float()` of a string are parameters. */
module Routes {
  import opened Common
  import opened LayoutParams
  import opened CyExProjects

  // ----- the request --------------------------------------------------------------

  /** `flask.request.form.to_dict()`. */
  type Form = map<string, string>

  /** An uploaded file: its name and its text after `.decode("utf-8")`. */
  datatype UploadedFile = UploadedFile(filename: string, content: string)

  /** The tags dict of lines 68-72. */
  datatype Tags = Tags(stringify: bool, stringWrite: bool, stringCalcLay: bool)

  /** The arguments of the `VRNetzer_upload_workflow` call at lines 80-89. */
  datatype Upload = Upload(
    network: Value, filename: string, projectName: string, algos: seq<string>,
    tags: Tags, variables: seq<Variables>, layoutNames: seq<string>, overwrite: bool)

  /** What the route does: return an error page, call the workflow, or raise. */
  datatype Response = ErrorPage(html: string) | Workflow(upload: Upload) | Raised(error: Error)

  const MissingFilePage := "<a style=\"color:red;\"href=\"/upload\">ERROR invalid VRNetz file!</a>"
  const InvalidJsonPage := "<a style=\"color:red;\">ERROR invalid VRNetz file!</a>"
  const ProjectNameKey := "CyEx_project_name"
  /** `VRNE.network`, the metadata section of a VRNetz document. */
  const NetworkKey := "network"

  /** The keys of the variables dict, in the order of lines 52-60. */
  const VariableKeys := ["opt_dis", "iterations", "prplxty", "density", "l_rate", "steps", "n_neighbors", "spread", "min_dist"]

  // ----- the field names ----------------------------------------------------------

  /** A decimal digit. */
  function Digit(d: nat): (c: char)
    requires d < 10
    ensures '0' <= c <= '9' && c as int - '0' as int == d
  {
    ('0' as int + d) as char
  }

  /** `f"{n}"` for a natural number: its decimal digits, no leading zero. */
  function NatToString(n: nat): (s: string)
    ensures 1 <= |s| && (n >= 10 <==> |s| >= 2)
    decreases n
  {
    if n < 10 then [Digit(n)] else NatToString(n / 10) + [Digit(n % 10)]
  }

  /** Distinct numbers print differently. */
  lemma {:induction false} NatToStringInjective(a: nat, b: nat)
    requires NatToString(a) == NatToString(b)
    ensures a == b
    decreases a
  {
    if a >= 10 && b >= 10 {
      var sa, sb := NatToString(a), NatToString(b);
      assert sa[..|sa| - 1] == NatToString(a / 10) && sb[..|sb| - 1] == NatToString(b / 10);
      NatToStringInjective(a / 10, b / 10);
      assert Digit(a % 10) == sa[|sa| - 1] == sb[|sb| - 1] == Digit(b % 10);
    }
  }

  /** `f"layout_{i}_{field}"`. */
  function FieldKey(i: nat, field: string): string
  {
    "layout_" + NatToString(i) + "_" + field
  }

  function NameKey(i: nat): string { FieldKey(i, "name") }
  function AlgoKey(i: nat): string { FieldKey(i, "algo") }

  /** For one field, the keys of distinct layouts differ. */
  lemma FieldKeyInjective(i: nat, j: nat, field: string)
    requires FieldKey(i, field) == FieldKey(j, field)
    ensures i == j
  {
    var a, b := FieldKey(i, field), FieldKey(j, field);
    var n := |NatToString(i)|;
    assert |NatToString(j)| == n;
    assert NatToString(i) == a[7..7 + n] == b[7..7 + n] == NatToString(j);
    NatToStringInjective(i, j);
  }

  /** How the form names the fields of layout `i` and which variables a
      layout has. The route uses `Source`; the loop is proved for any schema
      whose name keys are distinct and whose variables include the three
      counts. */
  datatype Schema = Schema(
    nameKey: nat -> string, algoKey: nat -> string, fieldKey: (nat, string) -> string,
    variableKeys: seq<string>)

  const Source := Schema(NameKey, AlgoKey, FieldKey, VariableKeys)

  /** The keys of the three counts are among the keys read. */
  predicate CountsIn(keys: seq<string>)
  {
    "iterations" in keys && "steps" in keys && "n_neighbors" in keys
  }

  ghost predicate ValidSchema(sc: Schema)
  {
    CountsIn(sc.variableKeys) && forall a: nat, b: nat :: sc.nameKey(a) == sc.nameKey(b) ==> a == b
  }

  /** The keys of lines 52-60 include the three counts. */
  lemma CountKeys()
    ensures CountsIn(VariableKeys)
  {
    assert VariableKeys[1] == "iterations" && VariableKeys[5] == "steps" && VariableKeys[6] == "n_neighbors";
  }

  /** The field names of lines 42-43 and 50 form a schema. */
  lemma SourceValid()
    ensures ValidSchema(Source)
  {
    CountKeys();
    forall a: nat, b: nat | NameKey(a) == NameKey(b)
      ensures a == b
    {
      FieldKeyInjective(a, b, "name");
    }
  }

  /** The name keys of the layouts before `i`. */
  ghost function NamesBelow(sc: Schema, i: nat): set<string>
    decreases i
  {
    if i <= 1 then {} else NamesBelow(sc, i - 1) + {sc.nameKey(i - 1)}
  }

  /** The name key of a later layout is not among them. */
  lemma {:induction false} NamesBelowFresh(sc: Schema, i: nat, j: nat)
    requires ValidSchema(sc) && i <= j
    ensures sc.nameKey(j) !in NamesBelow(sc, i)
    decreases i
  {
    if i > 1 {
      NamesBelowFresh(sc, i - 1, j);
    }
  }

  /** The loop over `i` ends, the form being finite: one more layout uses one
      more of its keys. */
  lemma NamesShrink(form: Form, sc: Schema, i: nat)
    requires ValidSchema(sc) && i >= 1 && sc.nameKey(i) in form
    ensures |form.Keys - NamesBelow(sc, i + 1)| < |form.Keys - NamesBelow(sc, i)|
  {
    NamesBelowFresh(sc, i, i);
    var left := form.Keys - NamesBelow(sc, i);
    assert sc.nameKey(i) in left;
    assert form.Keys - NamesBelow(sc, i + 1) == left - {sc.nameKey(i)};
  }

  // ----- one layout's variables -----------------------------------------------------------

  /** The dict comprehension of lines 49-62 over `keys`: `float()` of each
      field in turn; a missing field raises KeyError, text `float()` cannot
      read raises ValueError. */
  function FloatFields(form: Form, toFloat: string -> Option<real>, sc: Schema, i: nat, keys: seq<string>): (r: Result<Variables>)
    ensures r.Err? ==> r.error.KeyError? || r.error.ValueError?
    decreases |keys|
  {
    if keys == [] then Ok(map[])
    else
      var key := sc.fieldKey(i, keys[0]);
      if key !in form then Err(KeyError(key))
      else match toFloat(form[key])
        case None => Err(ValueError("could not convert string to float"))
        case Some(x) =>
          match FloatFields(form, toFloat, sc, i, keys[1..])
          case Err(err) => Err(err)
          case Ok(rest) => Ok(rest[keys[0] := FloatNum(x)])
  }

  /** The comprehension succeeds exactly when every field is there and reads
      as a number, and then holds those numbers under `keys`; otherwise it
      raises for one of the fields. */
  lemma {:induction false} FloatFieldsFacts(form: Form, toFloat: string -> Option<real>, sc: Schema, i: nat, keys: seq<string>)
    ensures var r := FloatFields(form, toFloat, sc, i, keys);
      r.Ok? <==> forall k :: k in keys ==> sc.fieldKey(i, k) in form && toFloat(form[sc.fieldKey(i, k)]).Some?
    ensures var r := FloatFields(form, toFloat, sc, i, keys);
      r.Ok? ==> forall k :: k in r.value <==> k in keys
    ensures var r := FloatFields(form, toFloat, sc, i, keys);
      r.Ok? ==> forall k :: k in keys ==> r.value[k] == FloatNum(toFloat(form[sc.fieldKey(i, k)]).value)
    ensures var r := FloatFields(form, toFloat, sc, i, keys);
      r.Err? ==> exists k :: k in keys && (r.error == KeyError(sc.fieldKey(i, k)) || r.error == ValueError("could not convert string to float"))
    decreases |keys|
  {
    if keys != [] {
      FloatFieldsFacts(form, toFloat, sc, i, keys[1..]);
      assert forall k :: k in keys <==> k == keys[0] || k in keys[1..];
    }
  }

  /** Lines 63-65: the three counts become `int`. */
  function CastCounts(v: Variables): Variables
    requires "iterations" in v && "steps" in v && "n_neighbors" in v
  {
    v["iterations" := IntNum(ToInt(v["iterations"]))]["steps" := IntNum(ToInt(v["steps"]))]["n_neighbors" := IntNum(ToInt(v["n_neighbors"]))]
  }

  /** The variables dict of layout `i`. */
  function LayoutVariables(form: Form, toFloat: string -> Option<real>, sc: Schema, i: nat): Result<Variables>
    requires CountsIn(sc.variableKeys)
  {
    match FloatFields(form, toFloat, sc, i, sc.variableKeys)
    case Err(err) => Err(err)
    case Ok(v) =>
      FloatFieldsFacts(form, toFloat, sc, i, sc.variableKeys);
      Ok(CastCounts(v))
  }

  // ----- the layout loop -----------------------------------------------------------------

  /** One decoded layout: its algorithm, its name and its variables. */
  datatype LayoutFields = LayoutFields(algo: string, name: string, variables: Variables)

  /** Layout `i` has at least one of its two fields: the loop goes on. */
  predicate Present(form: Form, sc: Schema, i: nat)
  {
    sc.nameKey(i) in form || sc.algoKey(i) in form
  }

  /** Lines 46-66 for layout `i`: `form[algo]` is read before `form[name]`,
      then the variables. */
  function LayoutAt(form: Form, toFloat: string -> Option<real>, sc: Schema, i: nat): (r: Result<LayoutFields>)
    requires CountsIn(sc.variableKeys)
    ensures r.Ok? ==> sc.algoKey(i) in form && sc.nameKey(i) in form
  {
    if sc.algoKey(i) !in form then Err(KeyError(sc.algoKey(i)))
    else if sc.nameKey(i) !in form then Err(KeyError(sc.nameKey(i)))
    else match LayoutVariables(form, toFloat, sc, i)
      case Err(err) => Err(err)
      case Ok(v) => Ok(LayoutFields(form[sc.algoKey(i)], form[sc.nameKey(i)], v))
  }

  /** The loop of lines 41-67 from `i` on: it stops at the first `i` with
      neither field, or at the first layout that raises. */
  function DecodeFrom(form: Form, toFloat: string -> Option<real>, sc: Schema, i: nat): (r: Result<seq<LayoutFields>>)
    requires ValidSchema(sc) && i >= 1
    ensures r.Err? ==> r.error.KeyError? || r.error.ValueError?
    decreases |form.Keys - NamesBelow(sc, i)|
  {
    if !Present(form, sc, i) then Ok([])
    else match LayoutAt(form, toFloat, sc, i)
      case Err(err) => Err(err)
      case Ok(l) =>
        NamesShrink(form, sc, i);
        match DecodeFrom(form, toFloat, sc, i + 1)
        case Err(err) => Err(err)
        case Ok(rest) => Ok([l] + rest)
  }

  // ----- the tags ------------------------------------------------------------------------

  /** Line 76-78 on the parsed document: `network[VRNE.network]` needs a dict
      with that key; `"database" in ...` tests a dict's keys, a list's items
      or a string's substrings, and the lookup that follows a true test only
      works on a dict. */
  function Stringify(network: Value): (r: Result<bool>)
    ensures r.Err? ==> r.error.KeyError? || r.error.TypeError?
    ensures r.Err? && r.error.KeyError? <==> network.Dict? && NetworkKey !in network.entries
  {
    match network
    case Dict(m) =>
      if NetworkKey !in m then Err(KeyError(NetworkKey))
      else
        (match m[NetworkKey]
         case Dict(meta) => Ok(IsStringNetwork(meta))
         case List(items) =>
           if Str("database") in items then Err(TypeError("list indices must be integers or slices, not str"))
           else Ok(false)
         case Str(s) =>
           if Contains(s, "database") then Err(TypeError("string indices must be integers"))
           else Ok(false)
         case _ => Err(TypeError("argument of type is not iterable")))
    case _ => Err(TypeError("object is not subscriptable"))
  }

  // ----- the route -----------------------------------------------------------------------

  /** The algorithms of the decoded layouts, in order. */
  function Algos(ls: seq<LayoutFields>): (r: seq<string>)
    ensures |r| == |ls| && forall k :: 0 <= k < |ls| ==> r[k] == ls[k].algo
  {
    seq(|ls|, k requires 0 <= k < |ls| => ls[k].algo)
  }

  /** The names of the decoded layouts, in order. */
  function Names(ls: seq<LayoutFields>): (r: seq<string>)
    ensures |r| == |ls| && forall k :: 0 <= k < |ls| ==> r[k] == ls[k].name
  {
    seq(|ls|, k requires 0 <= k < |ls| => ls[k].name)
  }

  /** The variables dicts of the decoded layouts, in order. */
  function VariablesOf(ls: seq<LayoutFields>): (r: seq<Variables>)
    ensures |r| == |ls| && forall k :: 0 <= k < |ls| ==> r[k] == ls[k].variables
  {
    seq(|ls|, k requires 0 <= k < |ls| => ls[k].variables)
  }

  /** `upload_vrnetz()` over the form schema `sc`. */
  function Route(form: Form, files: seq<UploadedFile>, parseJson: string -> Option<Value>, toFloat: string -> Option<real>, sc: Schema): (r: Response)
    requires ValidSchema(sc)
    ensures r.Workflow? ==> |files| > 0 && ProjectNameKey in form && r.upload.filename == files[0].filename != ""
    ensures r.Workflow? ==> r.upload.projectName == form[ProjectNameKey] && !r.upload.overwrite
    ensures r.Workflow? ==> |r.upload.algos| == |r.upload.layoutNames| == |r.upload.variables|
  {
    if |files| == 0 || files[0].filename == "" then ErrorPage(MissingFilePage)
    else match parseJson(files[0].content)
      case None => ErrorPage(InvalidJsonPage)
      case Some(network) =>
        if ProjectNameKey !in form then Raised(KeyError(ProjectNameKey))
        else match DecodeFrom(form, toFloat, sc, 1)
          case Err(err) => Raised(err)
          case Ok(ls) =>
            match Stringify(network)
            case Err(err) => Raised(err)
            case Ok(b) =>
              Workflow(Upload(network, files[0].filename, form[ProjectNameKey],
                Algos(ls), Tags(b, false, true), VariablesOf(ls), Names(ls), false))
  }

  /** `upload_vrnetz()` with the field names of lines 42-43 and 50. */
  function UploadResponse(form: Form, files: seq<UploadedFile>, parseJson: string -> Option<Value>, toFloat: string -> Option<real>): Response
  {
    SourceValid();
    Route(form, files, parseJson, toFloat, Source)
  }

  /** The three lists the loop builds, as layouts. */
  function Zip3(algos: seq<string>, names: seq<string>, vars: seq<Variables>): (ls: seq<LayoutFields>)
    requires |algos| == |names| == |vars|
    ensures |ls| == |algos| && forall k :: 0 <= k < |ls| ==> ls[k] == LayoutFields(algos[k], names[k], vars[k])
  {
    seq(|algos|, k requires 0 <= k < |algos| => LayoutFields(algos[k], names[k], vars[k]))
  }

  /** One more entry in each list is one more layout. */
  lemma ZipSnoc(algos: seq<string>, names: seq<string>, vars: seq<Variables>, algo: string, name: string, v: Variables)
    requires |algos| == |names| == |vars|
    ensures Zip3(algos + [algo], names + [name], vars + [v]) == Zip3(algos, names, vars) + [LayoutFields(algo, name, v)]
  {
  }

  /** The columns of the zipped lists are the lists. */
  lemma Unzip(algos: seq<string>, names: seq<string>, vars: seq<Variables>)
    requires |algos| == |names| == |vars|
    ensures Algos(Zip3(algos, names, vars)) == algos
    ensures Names(Zip3(algos, names, vars)) == names
    ensures VariablesOf(Zip3(algos, names, vars)) == vars
  {
  }

  /** Layouts already collected, in front of what the rest of the loop decodes. */
  function Prepend(done: seq<LayoutFields>, rest: Result<seq<LayoutFields>>): Result<seq<LayoutFields>>
  {
    match rest
    case Err(err) => Err(err)
    case Ok(ls) => Ok(done + ls)
  }

  /** Nothing collected yet. */
  lemma PrependNothing(rest: Result<seq<LayoutFields>>)
    ensures Prepend([], rest) == rest
  {
    if rest.Ok? {
      assert [] + rest.value == rest.value;
    }
  }

  /** Collected layouts in front of one more and the rest. */
  lemma PrependPrepend(done: seq<LayoutFields>, l: LayoutFields, rest: Result<seq<LayoutFields>>)
    ensures Prepend(done, Prepend([l], rest)) == Prepend(done + [l], rest)
  {
    if rest.Ok? {
      assert done + ([l] + rest.value) == done + [l] + rest.value;
    }
  }

  /** One turn of the loop: layout `i` decodes, and the rest of the loop
      goes on from `i + 1`. */
  lemma DecodeStep(form: Form, toFloat: string -> Option<real>, sc: Schema, i: nat, l: LayoutFields)
    requires ValidSchema(sc) && i >= 1 && LayoutAt(form, toFloat, sc, i) == Ok(l)
    ensures DecodeFrom(form, toFloat, sc, i) == Prepend([l], DecodeFrom(form, toFloat, sc, i + 1))
  {
    NamesShrink(form, sc, i);
  }

  /** Lines 49-65 for layout `i`: the floats, then the three counts cast in place. */
  method ReadVariables(form: Form, toFloat: string -> Option<real>, sc: Schema, i: nat) returns (r: Result<Variables>)
    requires CountsIn(sc.variableKeys)
    ensures r == LayoutVariables(form, toFloat, sc, i)
  {
    var floats := FloatFields(form, toFloat, sc, i, sc.variableKeys);
    if floats.Err? {
      return Err(floats.error);
    }
    FloatFieldsFacts(form, toFloat, sc, i, sc.variableKeys);
    var variables := floats.value;
    variables := variables["iterations" := IntNum(ToInt(variables["iterations"]))];
    variables := variables["steps" := IntNum(ToInt(variables["steps"]))];
    variables := variables["n_neighbors" := IntNum(ToInt(variables["n_neighbors"]))];
    r := Ok(variables);
  }

  /** Lines 46-66: one layout's fields. */
  method ReadLayout(form: Form, toFloat: string -> Option<real>, sc: Schema, i: nat) returns (r: Result<LayoutFields>)
    requires CountsIn(sc.variableKeys)
    ensures r == LayoutAt(form, toFloat, sc, i)
  {
    var name := sc.nameKey(i);
    var algo := sc.algoKey(i);
    if algo !in form {
      return Err(KeyError(algo));
    }
    if name !in form {
      return Err(KeyError(name));
    }
    var variables := ReadVariables(form, toFloat, sc, i);
    if variables.Err? {
      return Err(variables.error);
    }
    r := Ok(LayoutFields(form[algo], form[name], variables.value));
  }

  /** Lines 42-66, one turn of the loop once layout `i` has one of its
      fields: its three entries appended, or the error it raises. */
  method DecodeTurn(form: Form, toFloat: string -> Option<real>, sc: Schema, i: nat,
                    algos: seq<string>, layoutNames: seq<string>, algoVariables: seq<Variables>)
    returns (err: Option<Error>, algos': seq<string>, layoutNames': seq<string>, algoVariables': seq<Variables>)
    requires ValidSchema(sc) && i >= 1 && Present(form, sc, i)
    requires |algos| == |layoutNames| == |algoVariables|
    ensures |algos'| == |layoutNames'| == |algoVariables'|
    ensures err.Some? ==> Prepend(Zip3(algos, layoutNames, algoVariables), DecodeFrom(form, toFloat, sc, i)) == Err(err.value)
    ensures err.None? ==> sc.nameKey(i) in form &&
                          Prepend(Zip3(algos, layoutNames, algoVariables), DecodeFrom(form, toFloat, sc, i)) ==
                          Prepend(Zip3(algos', layoutNames', algoVariables'), DecodeFrom(form, toFloat, sc, i + 1))
  {
    var layout := ReadLayout(form, toFloat, sc, i);
    if layout.Err? {
      return Some(layout.error), algos, layoutNames, algoVariables;
    }
    var l := layout.value;
    DecodeStep(form, toFloat, sc, i, l);
    PrependPrepend(Zip3(algos, layoutNames, algoVariables), l, DecodeFrom(form, toFloat, sc, i + 1));
    ZipSnoc(algos, layoutNames, algoVariables, l.algo, l.name, l.variables);
    err, algos', layoutNames', algoVariables' := None, algos + [l.algo], layoutNames + [l.name], algoVariables + [l.variables];
  }

  /** Lines 36-67: the three lists, or the error that ends the loop early. */
  method DecodeLoop(form: Form, toFloat: string -> Option<real>, sc: Schema)
    returns (err: Option<Error>, algos: seq<string>, layoutNames: seq<string>, algoVariables: seq<Variables>)
    requires ValidSchema(sc)
    ensures |algos| == |layoutNames| == |algoVariables|
    ensures DecodeFrom(form, toFloat, sc, 1) == if err.Some? then Err(err.value) else Ok(Zip3(algos, layoutNames, algoVariables))
  {
    var i := 1;
    algos, layoutNames, algoVariables := [], [], [];
    assert Zip3(algos, layoutNames, algoVariables) == [];
    PrependNothing(DecodeFrom(form, toFloat, sc, 1));
    while true
      invariant i >= 1
      invariant |algos| == |layoutNames| == |algoVariables|
      invariant DecodeFrom(form, toFloat, sc, 1) == Prepend(Zip3(algos, layoutNames, algoVariables), DecodeFrom(form, toFloat, sc, i))
      decreases |form.Keys - NamesBelow(sc, i)|
    {
      if sc.nameKey(i) !in form && sc.algoKey(i) !in form {
        DecodeStops(form, toFloat, sc, i, Zip3(algos, layoutNames, algoVariables));
        break;
      }
      err, algos, layoutNames, algoVariables := DecodeTurn(form, toFloat, sc, i, algos, layoutNames, algoVariables);
      if err.Some? {
        return;
      }
      NamesShrink(form, sc, i);
      i := i + 1;
    }
    err := None;
  }

  /** The loop ends at a layout with neither field, keeping what it collected. */
  lemma DecodeStops(form: Form, toFloat: string -> Option<real>, sc: Schema, i: nat, done: seq<LayoutFields>)
    requires ValidSchema(sc) && i >= 1 && !Present(form, sc, i)
    ensures Prepend(done, DecodeFrom(form, toFloat, sc, i)) == Ok(done)
  {
    assert done + [] == done;
  }

  /** The route, step by step as the source runs it, over the schema `sc`. */
  method HandleUpload(form: Form, files: seq<UploadedFile>, parseJson: string -> Option<Value>, toFloat: string -> Option<real>, sc: Schema)
    returns (r: Response)
    requires ValidSchema(sc)
    ensures r == Route(form, files, parseJson, toFloat, sc)
  {
    if |files| == 0 || files[0].filename == "" {
      return ErrorPage(MissingFilePage);
    }
    var networkFile := files[0];
    var parsed := parseJson(networkFile.content);
    if parsed.None? {
      return ErrorPage(InvalidJsonPage);
    }
    var network := parsed.value;
    if ProjectNameKey !in form {
      return Raised(KeyError(ProjectNameKey));
    }
    var projectName := form[ProjectNameKey];
    var overwriteProject := false;
    var err, algos, layoutNames, algoVariables := DecodeLoop(form, toFloat, sc);
    if err.Some? {
      return Raised(err.value);
    }
    Unzip(algos, layoutNames, algoVariables);
    var stringify := Stringify(network);
    if stringify.Err? {
      return Raised(stringify.error);
    }
    var tags := Tags(stringify.value, false, true);
    r := Workflow(Upload(network, networkFile.filename, projectName, algos, tags, algoVariables, layoutNames, overwriteProject));
  }

  /** `upload_vrnetz()`. */
  method UploadVrnetz(form: Form, files: seq<UploadedFile>, parseJson: string -> Option<Value>, toFloat: string -> Option<real>)
    returns (r: Response)
    ensures r == UploadResponse(form, files, parseJson, toFloat)
  {
    SourceValid();
    r := HandleUpload(form, files, parseJson, toFloat, Source);
  }

  // ----- what the route promises ---------------------------------------------------------

  /** A layout's variables dict holds exactly the fields of `keys`, each read
      by `float()`, the three counts truncated to `int`; it exists exactly
      when every field is there and reads as a number. */
  lemma LayoutVariablesFacts(form: Form, toFloat: string -> Option<real>, sc: Schema, i: nat)
    requires CountsIn(sc.variableKeys)
    ensures LayoutVariables(form, toFloat, sc, i).Ok? <==>
      forall key :: key in sc.variableKeys ==> sc.fieldKey(i, key) in form && toFloat(form[sc.fieldKey(i, key)]).Some?
    ensures LayoutVariables(form, toFloat, sc, i).Ok? ==>
      var v := LayoutVariables(form, toFloat, sc, i).value;
      (forall key :: key in v <==> key in sc.variableKeys) &&
      forall key :: key in sc.variableKeys ==>
        var x := toFloat(form[sc.fieldKey(i, key)]).value;
        v[key] == if key in ["iterations", "steps", "n_neighbors"] then IntNum(Trunc(x)) else FloatNum(x)
  {
    var r := FloatFields(form, toFloat, sc, i, sc.variableKeys);
    FloatFieldsFacts(form, toFloat, sc, i, sc.variableKeys);
    if r.Ok? {
      forall key | key in sc.variableKeys
        ensures var x := toFloat(form[sc.fieldKey(i, key)]).value;
          CastCounts(r.value)[key] == if key in ["iterations", "steps", "n_neighbors"] then IntNum(Trunc(x)) else FloatNum(x)
      {
        assert r.value[key] == FloatNum(toFloat(form[sc.fieldKey(i, key)]).value);
      }
    }
  }

  /** A layout that raises: its algorithm field is missing, or else its name
      field, or else one of its variables is missing or not a number. */
  lemma LayoutAtErr(form: Form, toFloat: string -> Option<real>, sc: Schema, i: nat)
    requires CountsIn(sc.variableKeys) && LayoutAt(form, toFloat, sc, i).Err?
    ensures var e := LayoutAt(form, toFloat, sc, i).error;
      if sc.algoKey(i) !in form then e == KeyError(sc.algoKey(i))
      else if sc.nameKey(i) !in form then e == KeyError(sc.nameKey(i))
      else (exists key :: key in sc.variableKeys && (e == KeyError(sc.fieldKey(i, key)) || e == ValueError("could not convert string to float")))
  {
    FloatFieldsFacts(form, toFloat, sc, i, sc.variableKeys);
  }

  /** Layouts `i` up to `j` (excluded) have one of their fields and decode to `ls`. */
  ghost predicate DecodesTo(form: Form, toFloat: string -> Option<real>, sc: Schema, i: nat, ls: seq<LayoutFields>)
    requires CountsIn(sc.variableKeys)
  {
    forall j :: i <= j < i + |ls| ==> Present(form, sc, j) && LayoutAt(form, toFloat, sc, j) == Ok(ls[j - i])
  }

  /** The layout right after the `|ls|` ones from `i` on has neither field. */
  ghost predicate StopsAfter(form: Form, sc: Schema, i: nat, ls: seq<LayoutFields>)
  {
    !Present(form, sc, i + |ls|)
  }

  /** A loop that ends normally: the layouts it collected are those from `i`
      on, each with one of its fields and decoding, and the first layout
      after them has neither field. */
  lemma {:induction false} DecodeFromOk(form: Form, toFloat: string -> Option<real>, sc: Schema, i: nat)
    requires ValidSchema(sc) && i >= 1 && DecodeFrom(form, toFloat, sc, i).Ok?
    ensures DecodesTo(form, toFloat, sc, i, DecodeFrom(form, toFloat, sc, i).value)
    ensures StopsAfter(form, sc, i, DecodeFrom(form, toFloat, sc, i).value)
    decreases |DecodeFrom(form, toFloat, sc, i).value|
  {
    if Present(form, sc, i) {
      DecodeFromUnfold(form, toFloat, sc, i);
      var l, rest := LayoutAt(form, toFloat, sc, i).value, DecodeFrom(form, toFloat, sc, i + 1).value;
      var next := i + 1;
      DecodeFromOk(form, toFloat, sc, next);
      DecodesToCons(form, toFloat, sc, i, l, rest);
      StopsCons(form, sc, i, l, rest);
    }
  }

  /** A loop from `i` that ends normally has decoded layout `i` and goes on
      normally from `i + 1`. */
  lemma DecodeFromUnfold(form: Form, toFloat: string -> Option<real>, sc: Schema, i: nat)
    requires ValidSchema(sc) && i >= 1 && Present(form, sc, i) && DecodeFrom(form, toFloat, sc, i).Ok?
    ensures LayoutAt(form, toFloat, sc, i).Ok? && DecodeFrom(form, toFloat, sc, i + 1).Ok?
    ensures DecodeFrom(form, toFloat, sc, i).value == [LayoutAt(form, toFloat, sc, i).value] + DecodeFrom(form, toFloat, sc, i + 1).value
  {
  }

  /** Stopping after `rest` from `i + 1` is stopping after `[l] + rest` from `i`. */
  lemma StopsCons(form: Form, sc: Schema, i: nat, l: LayoutFields, rest: seq<LayoutFields>)
    requires StopsAfter(form, sc, i + 1, rest)
    ensures StopsAfter(form, sc, i, [l] + rest)
  {
    assert i + |[l] + rest| == i + 1 + |rest|;
  }

  /** Decoding layout `i` in front of the layouts after it. */
  lemma DecodesToCons(form: Form, toFloat: string -> Option<real>, sc: Schema, i: nat, l: LayoutFields, rest: seq<LayoutFields>)
    requires CountsIn(sc.variableKeys) && Present(form, sc, i) && LayoutAt(form, toFloat, sc, i) == Ok(l)
    requires DecodesTo(form, toFloat, sc, i + 1, rest)
    ensures DecodesTo(form, toFloat, sc, i, [l] + rest)
  {
    var ls := [l] + rest;
    forall j | i <= j < i + |ls|
      ensures Present(form, sc, j) && LayoutAt(form, toFloat, sc, j) == Ok(ls[j - i])
    {
      if j > i {
        assert ls[j - i] == rest[j - (i + 1)];
      }
    }
  }

  /** And back: layouts from `i` on that all decode, followed by one with
      neither field, are what the loop collects. */
  lemma DecodeFromComplete(form: Form, toFloat: string -> Option<real>, sc: Schema, i: nat, ls: seq<LayoutFields>)
    requires ValidSchema(sc) && i >= 1 && StopsAfter(form, sc, i, ls) && DecodesTo(form, toFloat, sc, i, ls)
    ensures DecodeFrom(form, toFloat, sc, i) == Ok(ls)
  {
    var r := DecodeFrom(form, toFloat, sc, i);
    if r.Err? {
      DecodeFromErr(form, toFloat, sc, i);
      var j: nat :| FailsAt(form, toFloat, sc, i, j, r.error);
      FailsBeyond(form, toFloat, sc, i, j, r.error, ls);
      assert false;
    }
    DecodeFromOk(form, toFloat, sc, i);
    DecodesToUnique(form, toFloat, sc, i, r.value, ls);
  }

  /** A layout from `i` on that raises comes after any run of decoding layouts. */
  lemma FailsBeyond(form: Form, toFloat: string -> Option<real>, sc: Schema, i: nat, j: nat, e: Error, ls: seq<LayoutFields>)
    requires CountsIn(sc.variableKeys) && FailsAt(form, toFloat, sc, i, j, e) && DecodesTo(form, toFloat, sc, i, ls)
    ensures Present(form, sc, i + |ls|)
  {
    assert j >= i + |ls|;
  }

  /** Two runs of decoding layouts from `i` on, each followed by a layout with
      neither field, are the same run. */
  lemma DecodesToUnique(form: Form, toFloat: string -> Option<real>, sc: Schema, i: nat, ls: seq<LayoutFields>, ms: seq<LayoutFields>)
    requires CountsIn(sc.variableKeys)
    requires StopsAfter(form, sc, i, ls) && DecodesTo(form, toFloat, sc, i, ls)
    requires StopsAfter(form, sc, i, ms) && DecodesTo(form, toFloat, sc, i, ms)
    ensures ls == ms
  {
    assert |ls| <= |ms| by {
      assert !Present(form, sc, i + |ls|);
    }
    assert |ms| <= |ls| by {
      assert !Present(form, sc, i + |ms|);
    }
    forall k | 0 <= k < |ls|
      ensures ls[k] == ms[k]
    {
      assert LayoutAt(form, toFloat, sc, i + k) == Ok(ls[i + k - i]);
    }
  }

  /** One turn of the loop: a decoding layout `i` goes in front of what
      follows it. */
  lemma DecodeFromCons(form: Form, toFloat: string -> Option<real>, sc: Schema, i: nat, l: LayoutFields, rest: seq<LayoutFields>)
    requires ValidSchema(sc) && i >= 1 && Present(form, sc, i) && LayoutAt(form, toFloat, sc, i) == Ok(l)
    requires DecodeFrom(form, toFloat, sc, i + 1) == Ok(rest)
    ensures DecodeFrom(form, toFloat, sc, i) == Ok([l] + rest)
  {
  }

  /** The number of layouts from `i` on that decode before the loop stops
      or raises. */
  ghost function Depth(form: Form, toFloat: string -> Option<real>, sc: Schema, i: nat): nat
    requires ValidSchema(sc) && i >= 1
    decreases |form.Keys - NamesBelow(sc, i)|
  {
    if !Present(form, sc, i) || LayoutAt(form, toFloat, sc, i).Err? then 0
    else
      NamesShrink(form, sc, i);
      1 + Depth(form, toFloat, sc, i + 1)
  }

  /** A loop that raises: the error is that of the first layout from `i` on
      that does not decode, every layout before it decoding. */
  lemma {:induction false} DecodeFromErr(form: Form, toFloat: string -> Option<real>, sc: Schema, i: nat)
    requires ValidSchema(sc) && i >= 1 && DecodeFrom(form, toFloat, sc, i).Err?
    ensures exists j: nat :: FailsAt(form, toFloat, sc, i, j, DecodeFrom(form, toFloat, sc, i).error)
    decreases Depth(form, toFloat, sc, i)
  {
    var e := DecodeFrom(form, toFloat, sc, i).error;
    if LayoutAt(form, toFloat, sc, i).Err? {
      assert FailsAt(form, toFloat, sc, i, i, e);
    } else {
      assert DecodeFrom(form, toFloat, sc, i + 1) == Err(e);
      var next := i + 1;
      DecodeFromErr(form, toFloat, sc, next);
      var j: nat :| FailsAt(form, toFloat, sc, next, j, e);
      FailsCons(form, toFloat, sc, i, j, e);
    }
  }

  /** Raising at `j` after `i + 1`, with layout `i` decoding, is raising at `j` after `i`. */
  lemma FailsCons(form: Form, toFloat: string -> Option<real>, sc: Schema, i: nat, j: nat, e: Error)
    requires CountsIn(sc.variableKeys) && Present(form, sc, i) && LayoutAt(form, toFloat, sc, i).Ok?
    requires FailsAt(form, toFloat, sc, i + 1, j, e)
    ensures FailsAt(form, toFloat, sc, i, j, e)
  {
  }

  /** Layout `j` is the first from `i` on that raises, and it raises `e`. */
  ghost predicate FailsAt(form: Form, toFloat: string -> Option<real>, sc: Schema, i: nat, j: nat, e: Error)
    requires CountsIn(sc.variableKeys)
  {
    i <= j && Present(form, sc, j) && LayoutAt(form, toFloat, sc, j) == Err(e) &&
    forall m :: i <= m < j ==> Present(form, sc, m) && LayoutAt(form, toFloat, sc, m).Ok?
  }

  // ----- what the upload promises --------------------------------------------------------

  /** Three lists that hold, at entry `k`, the algorithm field, the name field
      and the variables of layout `k + 1` of the form, all of which read; the
      layout after the last one has neither field. */
  ghost predicate Collected(form: Form, toFloat: string -> Option<real>, sc: Schema,
                            algos: seq<string>, names: seq<string>, vars: seq<Variables>)
    requires CountsIn(sc.variableKeys)
  {
    |algos| == |names| == |vars| &&
    sc.nameKey(|algos| + 1) !in form && sc.algoKey(|algos| + 1) !in form &&
    forall k :: 0 <= k < |algos| ==>
      sc.algoKey(k + 1) in form && algos[k] == form[sc.algoKey(k + 1)] &&
      sc.nameKey(k + 1) in form && names[k] == form[sc.nameKey(k + 1)] &&
      LayoutVariables(form, toFloat, sc, k + 1) == Ok(vars[k])
  }

  /** The loop of lines 41-67 from layout 1, when it ends normally, collects
      such lists. */
  lemma DecodedCollected(form: Form, toFloat: string -> Option<real>, sc: Schema)
    requires ValidSchema(sc) && DecodeFrom(form, toFloat, sc, 1).Ok?
    ensures var ls := DecodeFrom(form, toFloat, sc, 1).value;
      Collected(form, toFloat, sc, Algos(ls), Names(ls), VariablesOf(ls))
  {
    DecodeFromOk(form, toFloat, sc, 1);
    var ls := DecodeFrom(form, toFloat, sc, 1).value;
    forall k | 0 <= k < |ls|
      ensures sc.algoKey(k + 1) in form && ls[k].algo == form[sc.algoKey(k + 1)] &&
        sc.nameKey(k + 1) in form && ls[k].name == form[sc.nameKey(k + 1)] &&
        LayoutVariables(form, toFloat, sc, k + 1) == Ok(ls[k].variables)
    {
      assert LayoutAt(form, toFloat, sc, k + 1) == Ok(ls[k + 1 - 1]);
    }
  }

  /** And back: lists collected from the form are what the loop collects. */
  lemma CollectedDecodes(form: Form, toFloat: string -> Option<real>, sc: Schema,
                         algos: seq<string>, names: seq<string>, vars: seq<Variables>)
    requires ValidSchema(sc) && Collected(form, toFloat, sc, algos, names, vars)
    ensures DecodeFrom(form, toFloat, sc, 1) == Ok(Zip3(algos, names, vars))
  {
    var ls := Zip3(algos, names, vars);
    forall j | 1 <= j < 1 + |ls|
      ensures Present(form, sc, j) && LayoutAt(form, toFloat, sc, j) == Ok(ls[j - 1])
    {
      var k := j - 1;
      assert ls[k] == LayoutFields(algos[k], names[k], vars[k]);
    }
    DecodeFromComplete(form, toFloat, sc, 1, ls);
  }

  /** Lines 17-26: the route answers with an error page exactly when no file
      (or a file without a name) was sent or the file is not JSON, and the
      page says which. */
  lemma RouteErrorPage(form: Form, files: seq<UploadedFile>, parseJson: string -> Option<Value>, toFloat: string -> Option<real>, sc: Schema)
    requires ValidSchema(sc)
    ensures var r := Route(form, files, parseJson, toFloat, sc);
      r.ErrorPage? <==> |files| == 0 || files[0].filename == "" || parseJson(files[0].content).None?
    ensures var r := Route(form, files, parseJson, toFloat, sc);
      r.ErrorPage? ==> r.html == if |files| == 0 || files[0].filename == "" then MissingFilePage else InvalidJsonPage
  {
  }

  /** A call of the workflow (lines 80-89) passes the parsed file, its name,
      the project name, no overwrite, the tags of lines 68-78, and the lists
      collected from the layouts of the form. */
  lemma RouteWorkflow(form: Form, files: seq<UploadedFile>, parseJson: string -> Option<Value>, toFloat: string -> Option<real>, sc: Schema)
    requires ValidSchema(sc) && Route(form, files, parseJson, toFloat, sc).Workflow?
    ensures var u := Route(form, files, parseJson, toFloat, sc).upload;
      |files| > 0 && u.filename == files[0].filename != "" && parseJson(files[0].content) == Some(u.network) &&
      ProjectNameKey in form && u.projectName == form[ProjectNameKey] && !u.overwrite &&
      Stringify(u.network) == Ok(u.tags.stringify) && !u.tags.stringWrite && u.tags.stringCalcLay
    ensures var u := Route(form, files, parseJson, toFloat, sc).upload;
      Collected(form, toFloat, sc, u.algos, u.layoutNames, u.variables)
  {
    DecodedCollected(form, toFloat, sc);
  }

  /** And back: a JSON file whose network section the `database` test accepts, a project
      name and lists collected from the form make the route call the
      workflow with exactly those. */
  lemma RouteWorkflowComplete(form: Form, files: seq<UploadedFile>, parseJson: string -> Option<Value>, toFloat: string -> Option<real>, sc: Schema,
                              algos: seq<string>, names: seq<string>, vars: seq<Variables>)
    requires ValidSchema(sc) && |files| > 0 && files[0].filename != "" && parseJson(files[0].content).Some?
    requires ProjectNameKey in form && Stringify(parseJson(files[0].content).value).Ok?
    requires Collected(form, toFloat, sc, algos, names, vars)
    ensures var network := parseJson(files[0].content).value;
      Route(form, files, parseJson, toFloat, sc) ==
        Workflow(Upload(network, files[0].filename, form[ProjectNameKey], algos,
          Tags(Stringify(network).value, false, true), vars, names, false))
  {
    CollectedDecodes(form, toFloat, sc, algos, names, vars);
    Unzip(algos, names, vars);
  }

  /** A route that raises: without a project name it raises KeyError for it;
      otherwise the error is that of the first layout that does not read, or
      else that of the test on the network section. */
  lemma RouteRaises(form: Form, files: seq<UploadedFile>, parseJson: string -> Option<Value>, toFloat: string -> Option<real>, sc: Schema)
    requires ValidSchema(sc) && Route(form, files, parseJson, toFloat, sc).Raised?
    ensures |files| > 0 && files[0].filename != "" && parseJson(files[0].content).Some?
    ensures var e := Route(form, files, parseJson, toFloat, sc).error;
      if ProjectNameKey !in form then e == KeyError(ProjectNameKey)
      else (exists j: nat :: FailsAt(form, toFloat, sc, 1, j, e)) || Stringify(parseJson(files[0].content).value) == Err(e)
  {
    if ProjectNameKey in form && DecodeFrom(form, toFloat, sc, 1).Err? {
      DecodeFromErr(form, toFloat, sc, 1);
    }
  }

  /** Lines 76-78: the `stringify` tag is set exactly when the network
      section is a dict whose `database` is "string" or "stitch". */
  lemma StringifyTrue(network: Value)
    ensures Stringify(network) == Ok(true) <==>
      network.Dict? && NetworkKey in network.entries && network.entries[NetworkKey].Dict? &&
      IsStringNetwork(network.entries[NetworkKey].entries)
  {
  }

  /** Variables dicts read with keys that do not include `opt_dist` give
      layout.py's spring layout no `k`. */
  lemma CollectedNoOptDist(form: Form, toFloat: string -> Option<real>, sc: Schema,
                           algos: seq<string>, names: seq<string>, vars: seq<Variables>)
    requires CountsIn(sc.variableKeys) && "opt_dist" !in sc.variableKeys && Collected(form, toFloat, sc, algos, names, vars)
    ensures forall k :: 0 <= k < |vars| ==>
      "opt_dist" !in vars[k] && OptDist(vars[k]) == None && SpringVariables(vars[k])["k"] == NoneParam
  {
    forall k | 0 <= k < |vars|
      ensures "opt_dist" !in vars[k]
    {
      LayoutVariablesFacts(form, toFloat, sc, k + 1);
    }
  }

  /** Of the keys of lines 52-60, none is `opt_dist`. */
  lemma OptDistNotRead()
    ensures "opt_dist" !in VariableKeys
  {
    forall k | 0 <= k < |VariableKeys|
      ensures VariableKeys[k] != "opt_dist"
    {
      assert |VariableKeys[k]| != 8 || VariableKeys[k][0] == 'm';
    }
  }

  /** The route reads the layout variable `opt_dis` (line 52), so the
      variables dicts it hands on never hold the `opt_dist` that the spring
      layout of layout.py reads, and would give that layout no `k`. */
  lemma UploadNoOptDist(form: Form, files: seq<UploadedFile>, parseJson: string -> Option<Value>, toFloat: string -> Option<real>)
    requires UploadResponse(form, files, parseJson, toFloat).Workflow?
    ensures var u := UploadResponse(form, files, parseJson, toFloat).upload;
      forall k :: 0 <= k < |u.variables| ==>
        "opt_dist" !in u.variables[k] && OptDist(u.variables[k]) == None && SpringVariables(u.variables[k])["k"] == NoneParam
  {
    SourceValid();
    RouteWorkflow(form, files, parseJson, toFloat, Source);
    var u := UploadResponse(form, files, parseJson, toFloat).upload;
    OptDistNotRead();
    CollectedNoOptDist(form, toFloat, Source, u.algos, u.layoutNames, u.variables);
  }
}
