/** The build-time template rewriter (deployment/cdk-solution-helper/index.js):
    each synthesized CloudFormation template is rewritten in place so that
    Lambda code comes from the solution's regional bucket, the CDK asset
    and bootstrap parameters disappear, and the Rules section is dropped. */
module CdkHelper {
  import opened Common

  const FunctionType: string := "AWS::Lambda::Function"
  const LayerType: string := "AWS::Lambda::LayerVersion"
  const KeyPrefix: string := "%%SOLUTION_NAME%%/%%VERSION%%/asset"
  const BucketSub: string := "%%LAMBDA_BUCKET%%-${AWS::Region}"

  /** An S3Bucket value: a plain name, an `{"Fn::Sub": ...}` object, or any
      other intrinsic. */
  datatype BucketRef = Name(name: string) | Sub(template: string) | OtherRef

  /** The Code of a function or the Content of a layer; None marks an
      absent key. */
  datatype Asset = Asset(s3Bucket: Option<BucketRef>, s3Key: Option<string>)

  /** A resource: its Type, and its Code and Content properties (None when
      absent, or when the resource has no Properties). */
  datatype Resource = Resource(kind: string, code: Option<Asset>, content: Option<Asset>)

  predicate IsLambda(r: Resource) {
    r.kind == FunctionType || r.kind == LayerType
  }

  /** Code for functions, Content for layers. */
  function AssetOf(r: Resource): Option<Asset> {
    if r.kind == FunctionType then r.code else r.content
  }

  /** The asset rewrite: with an S3Bucket, the key gets the solution prefix
      and the bucket becomes the regional Fn::Sub; without one, nothing
      changes. `Object.assign` of a missing key throws. */
  function RewriteAsset(a: Asset): (r: Result<Asset>)
    ensures a.s3Bucket.None? ==> r == Ok(a)
    ensures a.s3Bucket.Some? ==> (r.Ok? <==> a.s3Key.Some?)
    ensures a.s3Bucket.Some? && r.Ok? ==>
      r.value.s3Bucket == Some(Sub(BucketSub)) && r.value.s3Key == Some(KeyPrefix + a.s3Key.value)
  {
    if a.s3Bucket.None? then Ok(a)
    else if a.s3Key.None? then Err(TypeError("Cannot convert undefined or null to object"))
    else Ok(Asset(Some(Sub(BucketSub)), Some(KeyPrefix + a.s3Key.value)))
  }

  /** One resource: Lambda functions and layers have their asset
      rewritten (a missing asset property throws); others are untouched. */
  function RewriteResource(r: Resource): (out: Result<Resource>)
    ensures !IsLambda(r) ==> out == Ok(r)
    ensures out.Ok? ==> out.value.kind == r.kind
  {
    if !IsLambda(r) then Ok(r)
    else if AssetOf(r).None? then Err(TypeError("Cannot read properties of undefined (reading 'hasOwnProperty')"))
    else
      match RewriteAsset(AssetOf(r).value)
      case Err(e) => Err(e)
      case Ok(a) => if r.kind == FunctionType then Ok(r.(code := Some(a))) else Ok(r.(content := Some(a)))
  }

  /** A rewritten asset keeps only the original key after the prefix: the
      key can be read back. */
  lemma RewriteKeyReadBack(a: Asset)
    requires a.s3Bucket.Some? && RewriteAsset(a).Ok?
    ensures IsPrefix(KeyPrefix, RewriteAsset(a).value.s3Key.value)
    ensures RewriteAsset(a).value.s3Key.value[|KeyPrefix|..] == a.s3Key.value
  {
  }

  /** The rewrite is not idempotent: a second pass over a rewritten
      template adds the prefix again. */
  lemma RewriteTwice(a: Asset)
    requires a.s3Bucket.Some? && a.s3Key.Some?
    ensures RewriteAsset(RewriteAsset(a).value).value.s3Key == Some(KeyPrefix + KeyPrefix + a.s3Key.value)
    ensures RewriteAsset(RewriteAsset(a).value).value.s3Bucket == RewriteAsset(a).value.s3Bucket
  {
    assert KeyPrefix + (KeyPrefix + a.s3Key.value) == KeyPrefix + KeyPrefix + a.s3Key.value;
  }

  /** Parameters removed by the clean-up: their name includes
      "AssetParameters" or "BootstrapVersion". */
  predicate IsAssetParameter(name: string) {
    Contains(name, "AssetParameters") || Contains(name, "BootstrapVersion")
  }

  /** The parameters as JSON.stringify writes them out: a parameter set to
      undefined is omitted. */
  function CleanedParameters(p: map<string, string>): (q: map<string, string>)
    ensures forall k :: k in q <==> k in p && !IsAssetParameter(k)
    ensures forall k :: k in q ==> q[k] == p[k]
  {
    map k | k in p && !IsAssetParameter(k) :: p[k]
  }

  /** Cleaning the parameters twice removes nothing more. */
  lemma CleanedParametersIdempotent(p: map<string, string>)
    ensures CleanedParameters(CleanedParameters(p)) == CleanedParameters(p)
  {
  }

  predicate AllRewritable(m: map<string, Resource>) {
    forall k :: k in m ==> RewriteResource(m[k]).Ok?
  }

  /** A synthesized template: Resources, Parameters and Rules (each None
      when the section is absent). */
  class Template {
    var resources: Option<map<string, Resource>>
    var parameters: Option<map<string, string>>
    var rules: Option<string>

    constructor (resources: Option<map<string, Resource>>, parameters: Option<map<string, string>>, rules: Option<string>)
      ensures this.resources == resources && this.parameters == parameters && this.rules == rules
    {
      this.resources := resources;
      this.parameters := parameters;
      this.rules := rules;
    }

    /** The Lambda clean-up: every function and layer is rewritten; a
        template with a malformed one throws (ok is false) and is not
        written out. */
    method CleanLambdaAssets() returns (ok: bool)
      modifies this
      ensures parameters == old(parameters) && rules == old(rules)
      ensures old(resources).None? ==> ok && resources == old(resources)
      ensures old(resources).Some? ==> (ok <==> AllRewritable(old(resources).value))
      ensures old(resources).Some? && ok ==> (resources.Some?
        && resources.value.Keys == old(resources).value.Keys
        && forall k :: k in resources.value ==> resources.value[k] == RewriteResource(old(resources).value[k]).value)
    {
      if resources.None? {
        return true;
      }
      var m := resources.value;
      var lambdaKeys := set k | k in m && IsLambda(m[k]);
      var keys := lambdaKeys;
      var out := m;
      while keys != {}
        invariant keys <= lambdaKeys
        invariant out.Keys == m.Keys
        invariant forall k :: k in m && k !in keys ==> RewriteResource(m[k]).Ok? && out[k] == RewriteResource(m[k]).value
        invariant forall k :: k in keys ==> out[k] == m[k]
        invariant resources == Some(m) && parameters == old(parameters) && rules == old(rules)
        decreases keys
      {
        var k :| k in keys;
        var r := RewriteResource(m[k]);
        if r.Err? {
          return false;
        }
        out := out[k := r.value];
        keys := keys - {k};
      }
      resources := Some(out);
      ok := true;
    }

    /** The Parameters clean-up. */
    method CleanParameters()
      modifies this
      ensures resources == old(resources) && rules == old(rules)
      ensures old(parameters).None? ==> parameters.None?
      ensures old(parameters).Some? ==> parameters == Some(CleanedParameters(old(parameters).value))
    {
      if parameters.None? {
        return;
      }
      var p := parameters.value;
      var assetKeys := set k | k in p && IsAssetParameter(k);
      var keys := assetKeys;
      var out := p;
      while keys != {}
        invariant keys <= assetKeys
        invariant out == map k | k in p && k !in (assetKeys - keys) :: p[k]
        decreases keys
      {
        var k :| k in keys;
        out := out - {k};
        keys := keys - {k};
      }
      assert out.Keys == CleanedParameters(p).Keys;
      parameters := Some(out);
    }

    /** The whole rewrite of one template; ok is false when it throws. */
    method Clean() returns (ok: bool)
      modifies this
      ensures old(resources).Some? && !AllRewritable(old(resources).value) ==> !ok
      ensures old(resources).None? || AllRewritable(old(resources).value) ==> ok
      ensures ok ==> rules.None?
      ensures ok && old(parameters).Some? ==> parameters == Some(CleanedParameters(old(parameters).value))
      ensures ok && old(parameters).None? ==> parameters.None?
      ensures ok && old(resources).Some? ==> (resources.Some?
        && resources.value.Keys == old(resources).value.Keys
        && forall k :: k in resources.value ==> resources.value[k] == RewriteResource(old(resources).value[k]).value)
      ensures ok && old(resources).None? ==> resources.None?
    {
      ok := CleanLambdaAssets();
      if !ok {
        return;
      }
      CleanParameters();
      rules := None;
    }
  }
}
