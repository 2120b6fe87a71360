/** Resolution of the files named on the command line.
    The process arguments are an explicit sequence `argv`: `argv[0]` is the
    runtime, `argv[1]` the entry script, `argv[2..]` the positional arguments. */
module CommandLine {

  /** Outcome of resolving one required path: the path, or the message of the
      error that is thrown when its argument is missing. */
  datatype PathResult = Ok(path: string) | Err(message: string)

  /** The three paths the driver hands to the validator, in loading order. */
  datatype Inputs = Inputs(schemaPath: string, modelPath: string, productInfoPath: string)

  /** Outcome of resolving all paths: the first missing-argument error wins. */
  datatype InputsResult = Resolved(inputs: Inputs) | Failed(message: string)

  const SchemaMissingMessage := "A schema and 3D model need to be provided as arguments"
  const ModelMissingMessage := "A 3D model needs to be provided as the second argument"

  /** `s.lastIndexOf(c)` for a one-character needle: the last position holding
      `c`, or -1 when `c` does not occur. */
  function LastIndexOf(s: string, c: char): (r: int)
    ensures -1 <= r < |s|
    ensures r >= 0 ==> s[r] == c
    ensures forall k :: r < k < |s| ==> s[k] != c
  {
    if s == [] then -1
    else if s[|s| - 1] == c then |s| - 1
    else LastIndexOf(s[..|s| - 1], c)
  }

  /** The directory of the entry script: its path cut just after the last '/'.
      The three ensures clauses determine the result uniquely (see
      BasePathUnique). */
  function BasePath(script: string): (r: string)
    ensures r <= script
    ensures r == [] || r[|r| - 1] == '/'
    ensures forall k :: |r| <= k < |script| ==> script[k] != '/'
    ensures r == [] <==> '/' !in script
  {
    script[..LastIndexOf(script, '/') + 1]
  }

  /** A prefix of `script` that is empty or ends in '/', with no '/' after it. */
  ghost predicate IsScriptDirectory(script: string, d: string)
  {
    && d <= script
    && (d == [] || d[|d| - 1] == '/')
    && forall k :: |d| <= k < |script| ==> script[k] != '/'
  }

  /** Only one prefix qualifies as the script's directory, so BasePath is
      the script's directory and nothing else. */
  lemma BasePathUnique(script: string, d: string)
    requires IsScriptDirectory(script, d)
    ensures d == BasePath(script)
  {
  }

  /** The schema path: an error when no positional argument is given,
      otherwise the first positional argument under the script's directory. */
  function SchemaPath(argv: seq<string>): (r: PathResult)
    ensures r.Err? <==> |argv| < 3
    ensures r.Err? ==> r.message == SchemaMissingMessage
    ensures r.Ok? ==> r.path == BasePath(argv[1]) + argv[2]
  {
    if |argv| < 3 then Err(SchemaMissingMessage)
    else Ok(BasePath(argv[1]) + argv[2])
  }

  /** The model path: an error when fewer than two positional arguments are
      given, otherwise the second one under the script's directory. */
  function ModelPath(argv: seq<string>): (r: PathResult)
    ensures r.Err? <==> |argv| < 4
    ensures r.Err? ==> r.message == ModelMissingMessage
    ensures r.Ok? ==> r.path == BasePath(argv[1]) + argv[3]
  {
    if |argv| < 4 then Err(ModelMissingMessage)
    else Ok(BasePath(argv[1]) + argv[3])
  }

  /** The optional product-information path: never an error; the empty
      string stands for "not given". */
  function ProductInfoPath(argv: seq<string>): (r: string)
    ensures |argv| < 5 ==> r == ""
    ensures |argv| >= 5 ==> r == BasePath(argv[1]) + argv[4]
  {
    if |argv| < 5 then ""
    else BasePath(argv[1]) + argv[4]
  }

  /** The driver loads product information exactly when the resolved path
      is a non-empty (truthy) string. */
  predicate LoadsProductInfo(argv: seq<string>)
    ensures LoadsProductInfo(argv) ==> |argv| >= 5
  {
    ProductInfoPath(argv) != ""
  }

  /** Product information is loaded iff a third positional argument is given
      and the resulting path is not empty, that is, the argument is not
      empty or the script path has a directory part. */
  lemma LoadsProductInfoIff(argv: seq<string>)
    ensures LoadsProductInfo(argv) <==>
      |argv| >= 5 && (argv[4] != "" || '/' in argv[1])
  {
    if |argv| >= 5 {
      var b := BasePath(argv[1]);
      assert |b + argv[4]| == |b| + |argv[4]|;
    }
  }

  /** Every path that resolves is its argument placed under one and the same
      directory, the directory of the entry script. When the script path
      contains no '/', that directory is empty and the path is the bare
      argument (see BasePath), which a loader resolves against the working
      directory of the process. */
  lemma ResolvedPathsShareScriptDirectory(argv: seq<string>)
    requires |argv| >= 2
    ensures exists d ::
      && IsScriptDirectory(argv[1], d)
      && (SchemaPath(argv).Ok? ==> SchemaPath(argv).path == d + argv[2])
      && (ModelPath(argv).Ok? ==> ModelPath(argv).path == d + argv[3])
      && (|argv| >= 5 ==> ProductInfoPath(argv) == d + argv[4])
  {
    var d := BasePath(argv[1]);
    assert IsScriptDirectory(argv[1], d);
  }

  /** Resolves the paths in the order the driver does: schema, then model,
      then product information, stopping at the first missing argument. */
  function ResolveInputs(argv: seq<string>): (r: InputsResult)
    ensures r.Failed? <==> |argv| < 4
    ensures r.Failed? ==>
      r.message == if |argv| < 3 then SchemaMissingMessage else ModelMissingMessage
    ensures r.Resolved? ==>
      && r.inputs.schemaPath == SchemaPath(argv).path
      && r.inputs.modelPath == ModelPath(argv).path
      && r.inputs.productInfoPath == ProductInfoPath(argv)
  {
    match SchemaPath(argv)
    case Err(m) => Failed(m)
    case Ok(schema) =>
      match ModelPath(argv)
      case Err(m) => Failed(m)
      case Ok(model) => Resolved(Inputs(schema, model, ProductInfoPath(argv)))
  }
}
