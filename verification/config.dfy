/**
 * `Config`: the deployment settings, read from the parsed YAML document and the
 * process environment. The YAML document is the value `data` (what `yaml.safe_load`
 * returned) and the environment is the map `environ`; `str()` of a non-string value
 * is `repr`.
 */
module Config {
  import opened Json
  import opened Text

  /** Every setting `load_config` assigns, in the order it assigns them. */
  datatype Settings = Settings(
    awsRegion: Value, awsAccount: Value, stackName: Value,
    s3InvoiceBucket: Value, s3FrontendBucket: Value,
    novaLiteModel: Value, claudeSonnetModel: Value, claudeHaikuModel: Value,
    lambdaTimeout: Value, lambdaMemory: Value, lambdaRuntime: Value,
    apiName: Value, corsAllowOrigins: Value, corsAllowMethods: Value, corsAllowHeaders: Value,
    cloudfrontDefaultRootObject: Value, cloudfrontErrorResponses: Value)

  const DEFAULT_REGION: string := "us-west-2"
  const DEFAULT_STACK: string := "InvoiceProcessorStack"
  const DEFAULT_INVOICE_BUCKET: string := "invoice-processor-documents"
  const DEFAULT_FRONTEND_BUCKET: string := "invoice-processor-frontend"
  const DEFAULT_NOVA_LITE: string := "us.amazon.nova-lite-v1:0"
  const DEFAULT_CLAUDE_SONNET: string := "anthropic.claude-3-5-sonnet-20241022-v2:0"
  const DEFAULT_CLAUDE_HAIKU: string := "anthropic.claude-3-haiku-20240307-v1:0"
  const DEFAULT_RUNTIME: string := "python3.13"
  const DEFAULT_API_NAME: string := "InvoiceProcessorAPI"
  const DEFAULT_ROOT_OBJECT: string := "index.html"
  const DEFAULT_ERROR_RESPONSES: Value :=
    List([Obj(map["http_status" := Num(404.0), "response_http_status" := Num(200.0),
                  "response_page_path" := Str("/index.html")])])

  /** `os.environ.get(k, default)`. */
  function EnvGet(environ: map<string, string>, k: string, default: Value): Value
  {
    if k in environ then Str(environ[k]) else default
  }

  /** `get_environment()`. */
  function GetEnvironment(environ: map<string, string>): string
  {
    if "ENVIRONMENT" in environ then environ["ENVIRONMENT"] else "dev"
  }

  /** `is_production()`: compared case-insensitively. */
  predicate IsProduction(environ: map<string, string>)
  {
    Lower(GetEnvironment(environ)) == "prod"
  }

  /** The settings before the environment-specific section is applied. */
  function BaseSettings(aws: Record, stack: Record, s3: Record, bedrock: Record, lambda: Record,
                        api: Record, cors: Record, cloudfront: Record, environ: map<string, string>): Settings
  {
    Settings(
      EnvGet(environ, "CDK_DEFAULT_REGION", GetOr(aws, "region", Str(DEFAULT_REGION))),
      EnvGet(environ, "CDK_DEFAULT_ACCOUNT", GetOr(aws, "account", Null)),
      GetOr(stack, "name", Str(DEFAULT_STACK)),
      GetOr(s3, "invoice_bucket", Str(DEFAULT_INVOICE_BUCKET)),
      GetOr(s3, "frontend_bucket", Str(DEFAULT_FRONTEND_BUCKET)),
      GetOr(bedrock, "nova_lite_model", Str(DEFAULT_NOVA_LITE)),
      GetOr(bedrock, "claude_sonnet_model", Str(DEFAULT_CLAUDE_SONNET)),
      GetOr(bedrock, "claude_haiku_model", Str(DEFAULT_CLAUDE_HAIKU)),
      GetOr(lambda, "timeout", Num(300.0)),
      GetOr(lambda, "memory", Num(1024.0)),
      GetOr(lambda, "runtime", Str(DEFAULT_RUNTIME)),
      GetOr(api, "name", Str(DEFAULT_API_NAME)),
      GetOr(cors, "allow_origins", List([Str("*")])),
      GetOr(cors, "allow_methods", List([Str("GET"), Str("POST"), Str("OPTIONS")])),
      GetOr(cors, "allow_headers", List([Str("Content-Type"), Str("Authorization")])),
      GetOr(cloudfront, "default_root_object", Str(DEFAULT_ROOT_OBJECT)),
      GetOr(cloudfront, "error_responses", DEFAULT_ERROR_RESPONSES))
  }

  /** `f"{base}-{suffix}"`. */
  function WithSuffix(base: Value, suffix: Value, repr: Value -> string): Value
  {
    Str(PyStr(base, repr) + "-" + PyStr(suffix, repr))
  }

  /** The environment section's overrides: its `cors_origins`, and a truthy `s3_suffix`
      appended to both bucket names. */
  function ApplyEnvironment(s: Settings, envConfig: Record, repr: Value -> string): Settings
  {
    var s1 := if "cors_origins" in envConfig then s.(corsAllowOrigins := envConfig["cors_origins"]) else s;
    var suffix := GetOr(envConfig, "s3_suffix", Str(""));
    if Truthy(suffix) then
      s1.(s3InvoiceBucket := WithSuffix(s1.s3InvoiceBucket, suffix, repr),
          s3FrontendBucket := WithSuffix(s1.s3FrontendBucket, suffix, repr))
    else s1
  }

  /** The sub-dictionaries `load_config` reads; `envConfig` is the current environment's
      entry of `environments`. */
  datatype Sections = Sections(aws: Record, stack: Record, s3: Record, bedrock: Record, lambda: Record,
                               api: Record, cors: Record, cloudfront: Record, envConfig: Record)

  /** The sections, or Raised where a `.get` is applied to a value that is not a dict. */
  function SectionsOf(data: Value, environ: map<string, string>): (r: Outcome<Sections>)
    ensures r.Done? <==>
      data.Obj? && SubRecord(data.fields, "aws").Done? && SubRecord(data.fields, "stack").Done?
      && SubRecord(data.fields, "s3").Done? && SubRecord(data.fields, "bedrock").Done?
      && SubRecord(data.fields, "lambda").Done? && SubRecord(data.fields, "api").Done?
      && SubRecord(SubRecord(data.fields, "api").value, "cors").Done?
      && SubRecord(data.fields, "cloudfront").Done? && SubRecord(data.fields, "environments").Done?
      && SubRecord(SubRecord(data.fields, "environments").value, GetEnvironment(environ)).Done?
  {
    if !data.Obj? then Raised
    else
      var d := data.fields;
      var aws := SubRecord(d, "aws");
      var stack := SubRecord(d, "stack");
      var s3 := SubRecord(d, "s3");
      var bedrock := SubRecord(d, "bedrock");
      var lambda := SubRecord(d, "lambda");
      var api := SubRecord(d, "api");
      if aws.Raised? || stack.Raised? || s3.Raised? || bedrock.Raised? || lambda.Raised? || api.Raised? then Raised
      else
        var cors := SubRecord(api.value, "cors");
        var cloudfront := SubRecord(d, "cloudfront");
        var envs := SubRecord(d, "environments");
        if cors.Raised? || cloudfront.Raised? || envs.Raised? then Raised
        else
          var envConfig := SubRecord(envs.value, GetEnvironment(environ));
          if envConfig.Raised? then Raised
          else Done(Sections(aws.value, stack.value, s3.value, bedrock.value, lambda.value,
                             api.value, cors.value, cloudfront.value, envConfig.value))
  }

  /** What `load_config` leaves in the fields, or Raised where it raises. */
  function LoadSpec(data: Value, environ: map<string, string>, repr: Value -> string): (r: Outcome<Settings>)
    ensures !data.Obj? ==> r == Raised
  {
    match SectionsOf(data, environ)
    case Done(x) =>
      Done(ApplyEnvironment(BaseSettings(x.aws, x.stack, x.s3, x.bedrock, x.lambda, x.api, x.cors, x.cloudfront, environ),
                            x.envConfig, repr))
    case Raised => Raised
  }

  class Config {
    var awsRegion: Value
    var awsAccount: Value
    var stackName: Value
    var s3InvoiceBucket: Value
    var s3FrontendBucket: Value
    var novaLiteModel: Value
    var claudeSonnetModel: Value
    var claudeHaikuModel: Value
    var lambdaTimeout: Value
    var lambdaMemory: Value
    var lambdaRuntime: Value
    var apiName: Value
    var corsAllowOrigins: Value
    var corsAllowMethods: Value
    var corsAllowHeaders: Value
    var cloudfrontDefaultRootObject: Value
    var cloudfrontErrorResponses: Value

    function Snapshot(): Settings
      reads this
    {
      Settings(awsRegion, awsAccount, stackName, s3InvoiceBucket, s3FrontendBucket,
               novaLiteModel, claudeSonnetModel, claudeHaikuModel,
               lambdaTimeout, lambdaMemory, lambdaRuntime,
               apiName, corsAllowOrigins, corsAllowMethods, corsAllowHeaders,
               cloudfrontDefaultRootObject, cloudfrontErrorResponses)
    }

    constructor ()
    {
    }

    /** The AWS section: the environment's region and account win over the file's. */
    method LoadAws(aws: Record, environ: map<string, string>)
      modifies this
      ensures Snapshot() == old(Snapshot()).(
        awsRegion := EnvGet(environ, "CDK_DEFAULT_REGION", GetOr(aws, "region", Str(DEFAULT_REGION))),
        awsAccount := EnvGet(environ, "CDK_DEFAULT_ACCOUNT", GetOr(aws, "account", Null)))
    {
      awsRegion := EnvGet(environ, "CDK_DEFAULT_REGION", GetOr(aws, "region", Str(DEFAULT_REGION)));
      awsAccount := EnvGet(environ, "CDK_DEFAULT_ACCOUNT", GetOr(aws, "account", Null));
    }

    method LoadStack(stack: Record)
      modifies this
      ensures Snapshot() == old(Snapshot()).(stackName := GetOr(stack, "name", Str(DEFAULT_STACK)))
    {
      stackName := GetOr(stack, "name", Str(DEFAULT_STACK));
    }

    method LoadS3(s3: Record)
      modifies this
      ensures Snapshot() == old(Snapshot()).(
        s3InvoiceBucket := GetOr(s3, "invoice_bucket", Str(DEFAULT_INVOICE_BUCKET)),
        s3FrontendBucket := GetOr(s3, "frontend_bucket", Str(DEFAULT_FRONTEND_BUCKET)))
    {
      s3InvoiceBucket := GetOr(s3, "invoice_bucket", Str(DEFAULT_INVOICE_BUCKET));
      s3FrontendBucket := GetOr(s3, "frontend_bucket", Str(DEFAULT_FRONTEND_BUCKET));
    }

    method LoadBedrock(bedrock: Record)
      modifies this
      ensures Snapshot() == old(Snapshot()).(
        novaLiteModel := GetOr(bedrock, "nova_lite_model", Str(DEFAULT_NOVA_LITE)),
        claudeSonnetModel := GetOr(bedrock, "claude_sonnet_model", Str(DEFAULT_CLAUDE_SONNET)),
        claudeHaikuModel := GetOr(bedrock, "claude_haiku_model", Str(DEFAULT_CLAUDE_HAIKU)))
    {
      novaLiteModel := GetOr(bedrock, "nova_lite_model", Str(DEFAULT_NOVA_LITE));
      claudeSonnetModel := GetOr(bedrock, "claude_sonnet_model", Str(DEFAULT_CLAUDE_SONNET));
      claudeHaikuModel := GetOr(bedrock, "claude_haiku_model", Str(DEFAULT_CLAUDE_HAIKU));
    }

    method LoadLambda(lambda: Record)
      modifies this
      ensures Snapshot() == old(Snapshot()).(
        lambdaTimeout := GetOr(lambda, "timeout", Num(300.0)),
        lambdaMemory := GetOr(lambda, "memory", Num(1024.0)),
        lambdaRuntime := GetOr(lambda, "runtime", Str(DEFAULT_RUNTIME)))
    {
      lambdaTimeout := GetOr(lambda, "timeout", Num(300.0));
      lambdaMemory := GetOr(lambda, "memory", Num(1024.0));
      lambdaRuntime := GetOr(lambda, "runtime", Str(DEFAULT_RUNTIME));
    }

    method LoadApiName(api: Record)
      modifies this
      ensures Snapshot() == old(Snapshot()).(apiName := GetOr(api, "name", Str(DEFAULT_API_NAME)))
    {
      apiName := GetOr(api, "name", Str(DEFAULT_API_NAME));
    }

    method LoadCors(cors: Record)
      modifies this
      ensures Snapshot() == old(Snapshot()).(
        corsAllowOrigins := GetOr(cors, "allow_origins", List([Str("*")])),
        corsAllowMethods := GetOr(cors, "allow_methods", List([Str("GET"), Str("POST"), Str("OPTIONS")])),
        corsAllowHeaders := GetOr(cors, "allow_headers", List([Str("Content-Type"), Str("Authorization")])))
    {
      corsAllowOrigins := GetOr(cors, "allow_origins", List([Str("*")]));
      corsAllowMethods := GetOr(cors, "allow_methods", List([Str("GET"), Str("POST"), Str("OPTIONS")]));
      corsAllowHeaders := GetOr(cors, "allow_headers", List([Str("Content-Type"), Str("Authorization")]));
    }

    method LoadCloudfront(cloudfront: Record)
      modifies this
      ensures Snapshot() == old(Snapshot()).(
        cloudfrontDefaultRootObject := GetOr(cloudfront, "default_root_object", Str(DEFAULT_ROOT_OBJECT)),
        cloudfrontErrorResponses := GetOr(cloudfront, "error_responses", DEFAULT_ERROR_RESPONSES))
    {
      cloudfrontDefaultRootObject := GetOr(cloudfront, "default_root_object", Str(DEFAULT_ROOT_OBJECT));
      cloudfrontErrorResponses := GetOr(cloudfront, "error_responses", DEFAULT_ERROR_RESPONSES);
    }

    /** The environment-specific overrides. */
    method ApplyOverrides(envConfig: Record, repr: Value -> string)
      modifies this
      ensures Snapshot() == ApplyEnvironment(old(Snapshot()), envConfig, repr)
    {
      if "cors_origins" in envConfig {
        corsAllowOrigins := envConfig["cors_origins"];
      }
      var suffix := GetOr(envConfig, "s3_suffix", Str(""));
      if Truthy(suffix) {
        s3InvoiceBucket := WithSuffix(s3InvoiceBucket, suffix, repr);
        s3FrontendBucket := WithSuffix(s3FrontendBucket, suffix, repr);
      }
    }

    /** `load_config`: section by section, each looked up and then assigned, and last the
        current environment's overrides. `ok` is false where Python raises. */
    method LoadConfig(data: Value, environ: map<string, string>, repr: Value -> string) returns (ok: bool)
      modifies this
      ensures ok <==> LoadSpec(data, environ, repr).Done?
      ensures ok ==> Snapshot() == LoadSpec(data, environ, repr).value
    {
      if !data.Obj? {
        return false;
      }
      var d := data.fields;
      var aws := SubRecord(d, "aws");
      if aws.Raised? { return false; }
      LoadAws(aws.value, environ);
      var stack := SubRecord(d, "stack");
      if stack.Raised? { return false; }
      LoadStack(stack.value);
      var s3 := SubRecord(d, "s3");
      if s3.Raised? { return false; }
      LoadS3(s3.value);
      var bedrock := SubRecord(d, "bedrock");
      if bedrock.Raised? { return false; }
      LoadBedrock(bedrock.value);
      var lambda := SubRecord(d, "lambda");
      if lambda.Raised? { return false; }
      LoadLambda(lambda.value);
      var api := SubRecord(d, "api");
      if api.Raised? { return false; }
      LoadApiName(api.value);
      var cors := SubRecord(api.value, "cors");
      if cors.Raised? { return false; }
      LoadCors(cors.value);
      var cloudfront := SubRecord(d, "cloudfront");
      if cloudfront.Raised? { return false; }
      LoadCloudfront(cloudfront.value);
      var envs := SubRecord(d, "environments");
      if envs.Raised? { return false; }
      var envConfig := SubRecord(envs.value, GetEnvironment(environ));
      if envConfig.Raised? { return false; }
      assert Snapshot() == BaseSettings(aws.value, stack.value, s3.value, bedrock.value, lambda.value,
                                        api.value, cors.value, cloudfront.value, environ);
      ApplyOverrides(envConfig.value, repr);
      ok := true;
    }

    /** `get_stack_name()`: the environment is appended unless it is exactly "prod". */
    function GetStackName(environ: map<string, string>, repr: Value -> string): (r: Value)
      reads this
      ensures r == stackName <==> GetEnvironment(environ) == "prod"
      ensures GetEnvironment(environ) != "prod" ==>
        r.Str? && IsPrefix(PyStr(stackName, repr) + "-", r.s) && IsSuffix("-" + GetEnvironment(environ), r.s)
        && |r.s| == |PyStr(stackName, repr)| + 1 + |GetEnvironment(environ)|
    {
      var env := GetEnvironment(environ);
      if env != "prod" then
        SuffixedNameEnds(PyStr(stackName, repr), env);
        Str(PyStr(stackName, repr) + "-" + env)
      else stackName
    }

    /** `get_s3_bucket_name(bucket_type)`: `base-account-region`, where the base is the
        invoice bucket exactly when the type is the string "invoice". */
    function GetS3BucketName(bucketType: Value, repr: Value -> string): (r: string)
      reads this
      ensures bucketType == Str("invoice") ==> IsPrefix(PyStr(s3InvoiceBucket, repr) + "-", r)
      ensures bucketType != Str("invoice") ==> IsPrefix(PyStr(s3FrontendBucket, repr) + "-", r)
      ensures IsSuffix("-" + PyStr(awsAccount, repr) + "-" + PyStr(awsRegion, repr), r)
      ensures |r| == |PyStr(if bucketType == Str("invoice") then s3InvoiceBucket else s3FrontendBucket, repr)|
                     + 1 + |PyStr(awsAccount, repr)| + 1 + |PyStr(awsRegion, repr)|
    {
      var base := if bucketType == Str("invoice") then s3InvoiceBucket else s3FrontendBucket;
      var tail := "-" + PyStr(awsAccount, repr) + "-" + PyStr(awsRegion, repr);
      ConcatEnds(PyStr(base, repr), tail);
      assert PyStr(base, repr) + tail == (PyStr(base, repr) + "-") + tail[1..];
      ConcatEnds(PyStr(base, repr) + "-", tail[1..]);
      PyStr(base, repr) + tail
    }
  }

  /** `get_config()`: a new Config whose `load_config` ran, or None where it raised. */
  method GetConfig(data: Value, environ: map<string, string>, repr: Value -> string) returns (r: Option<Config>)
    ensures r.Some? <==> LoadSpec(data, environ, repr).Done?
    ensures r.Some? ==> fresh(r.value) && r.value.Snapshot() == LoadSpec(data, environ, repr).value
  {
    var c := new Config();
    var ok := c.LoadConfig(data, environ, repr);
    r := if ok then Some(c) else None;
  }

  /** An empty YAML file (`safe_load` gives None) or a document that is not a mapping
      raises, and so does any section that is present but not a mapping. */
  lemma NonMappingRaises(data: Value, environ: map<string, string>, repr: Value -> string, section: string)
    requires !data.Obj? || (section in ["aws", "stack", "s3", "bedrock", "lambda", "api", "cloudfront", "environments"]
                            && section in data.fields && !data.fields[section].Obj?)
    ensures LoadSpec(data, environ, repr) == Raised
  {
    if data.Obj? {
      assert SubRecord(data.fields, section) == Raised;
    }
  }

  /** The values a file without any section yields. */
  lemma EmptyFileDefaults(environ: map<string, string>, repr: Value -> string)
    ensures LoadSpec(Obj(map[]), environ, repr) == Done(Settings(
      EnvGet(environ, "CDK_DEFAULT_REGION", Str(DEFAULT_REGION)), EnvGet(environ, "CDK_DEFAULT_ACCOUNT", Null),
      Str(DEFAULT_STACK), Str(DEFAULT_INVOICE_BUCKET), Str(DEFAULT_FRONTEND_BUCKET),
      Str(DEFAULT_NOVA_LITE), Str(DEFAULT_CLAUDE_SONNET),
      Str(DEFAULT_CLAUDE_HAIKU),
      Num(300.0), Num(1024.0), Str(DEFAULT_RUNTIME),
      Str(DEFAULT_API_NAME), List([Str("*")]), List([Str("GET"), Str("POST"), Str("OPTIONS")]),
      List([Str("Content-Type"), Str("Authorization")]),
      Str(DEFAULT_ROOT_OBJECT), DEFAULT_ERROR_RESPONSES))
  {
    var e: Record := map[];
    assert SectionsOf(Obj(map[]), environ) == Done(Sections(e, e, e, e, e, e, e, e, e));
    var b := BaseSettings(e, e, e, e, e, e, e, e, environ);
    assert ApplyEnvironment(b, e, repr) == b;
  }

  /** The deployment environment's CDK_DEFAULT_REGION and CDK_DEFAULT_ACCOUNT take
      precedence over the file; without them the account is the file's or None. */
  lemma EnvironmentWins(data: Value, environ: map<string, string>, repr: Value -> string)
    requires LoadSpec(data, environ, repr).Done?
    ensures "CDK_DEFAULT_REGION" in environ ==>
      LoadSpec(data, environ, repr).value.awsRegion == Str(environ["CDK_DEFAULT_REGION"])
    ensures "CDK_DEFAULT_ACCOUNT" in environ ==>
      LoadSpec(data, environ, repr).value.awsAccount == Str(environ["CDK_DEFAULT_ACCOUNT"])
    ensures "CDK_DEFAULT_ACCOUNT" !in environ ==>
      LoadSpec(data, environ, repr).value.awsAccount == GetOr(SubRecord(data.fields, "aws").value, "account", Null)
  {
    var x := SectionsOf(data, environ).value;
    assert x.aws == SubRecord(data.fields, "aws").value;
  }

  /** The current environment's `cors_origins` replaces the API's allowed origins. */
  lemma CorsOriginsOverride(data: Value, environ: map<string, string>, repr: Value -> string)
    requires LoadSpec(data, environ, repr).Done?
    ensures var x := SectionsOf(data, environ).value;
      LoadSpec(data, environ, repr).value.corsAllowOrigins ==
        if "cors_origins" in x.envConfig then x.envConfig["cors_origins"]
        else GetOr(x.cors, "allow_origins", List([Str("*")]))
  {
  }

  /** A truthy `s3_suffix` is appended to both bucket names after a hyphen; otherwise
      they are the file's. */
  lemma BucketSuffix(data: Value, environ: map<string, string>, repr: Value -> string)
    requires LoadSpec(data, environ, repr).Done?
    ensures var x := SectionsOf(data, environ).value;
      var r := LoadSpec(data, environ, repr).value;
      var suffix := GetOr(x.envConfig, "s3_suffix", Str(""));
      var invoice := GetOr(x.s3, "invoice_bucket", Str(DEFAULT_INVOICE_BUCKET));
      var frontend := GetOr(x.s3, "frontend_bucket", Str(DEFAULT_FRONTEND_BUCKET));
      if Truthy(suffix) then
        r.s3InvoiceBucket == Str(PyStr(invoice, repr) + "-" + PyStr(suffix, repr))
        && r.s3FrontendBucket == Str(PyStr(frontend, repr) + "-" + PyStr(suffix, repr))
      else r.s3InvoiceBucket == invoice && r.s3FrontendBucket == frontend
  {
  }

  /** `get_environment` falls back to "dev", which is not production; otherwise the
      deployment is production exactly when the variable lowers to "prod", so an exact
      "prod" is production too. */
  lemma ProductionNeedsVariable(environ: map<string, string>)
    ensures "ENVIRONMENT" !in environ ==> GetEnvironment(environ) == "dev" && !IsProduction(environ)
    ensures IsProduction(environ) <==> "ENVIRONMENT" in environ && Lower(environ["ENVIRONMENT"]) == "prod"
    ensures GetEnvironment(environ) == "prod" ==> IsProduction(environ)
  {
    assert Lower("dev") == "dev";
    assert Lower("prod") == "prod";
  }

  /** `is_production` ignores case but `get_stack_name` does not: with ENVIRONMENT set
      to "PROD" the deployment counts as production and its stack is still suffixed. */
  lemma UpperCaseProd(c: Config, environ: map<string, string>, repr: Value -> string)
    requires "ENVIRONMENT" in environ && environ["ENVIRONMENT"] == "PROD"
    ensures IsProduction(environ)
    ensures c.GetStackName(environ, repr) == Str(PyStr(c.stackName, repr) + "-PROD")
  {
    assert Lower("PROD") == "prod";
    assert GetEnvironment(environ) == "PROD";
    assert "PROD" != "prod" by { assert "PROD"[0] != "prod"[0]; }
    var name := PyStr(c.stackName, repr);
    assert c.GetStackName(environ, repr) == Str(name + "-" + "PROD");
    assert name + "-" + "PROD" == name + ("-" + "PROD");
    assert "-" + "PROD" == "-PROD";
  }

  /** With no file settings and no deployment variables the invoice bucket is named
      after a missing account: `invoice-processor-documents-None-us-west-2`. */
  lemma DefaultBucketName(c: Config, repr: Value -> string)
    requires c.Snapshot() == LoadSpec(Obj(map[]), map[], repr).value
    ensures c.GetS3BucketName(Str("invoice"), repr) == DEFAULT_INVOICE_BUCKET + "-" + "None" + "-" + DEFAULT_REGION
    ensures c.GetS3BucketName(Str("frontend"), repr) == DEFAULT_FRONTEND_BUCKET + "-" + "None" + "-" + DEFAULT_REGION
  {
    EmptyFileDefaults(map[], repr);
    assert c.s3InvoiceBucket == Str(DEFAULT_INVOICE_BUCKET);
    assert c.s3FrontendBucket == Str(DEFAULT_FRONTEND_BUCKET);
    assert c.awsAccount == Null && c.awsRegion == Str(DEFAULT_REGION);
    assert PyStr(c.awsAccount, repr) == "None" && PyStr(c.awsRegion, repr) == DEFAULT_REGION;
    BucketNameParts(DEFAULT_INVOICE_BUCKET, "None", DEFAULT_REGION);
    BucketNameParts(DEFAULT_FRONTEND_BUCKET, "None", DEFAULT_REGION);
  }

  /** `name-env` starts with `name-` and ends with `-env`. */
  lemma SuffixedNameEnds(name: string, env: string)
    ensures IsPrefix(name + "-", name + "-" + env) && IsSuffix("-" + env, name + "-" + env)
  {
    ConcatEnds(name, "-" + env);
    ConcatEnds(name + "-", env);
    assert name + "-" + env == name + ("-" + env);
  }

  lemma BucketNameParts(base: string, account: string, region: string)
    ensures base + ("-" + account + "-" + region) == base + "-" + account + "-" + region
  {
  }
}
