/** The Linode builder's configuration and its `Prepare` defaulting and
    validation (builder/linode/config.go).

    Decoding and template interpolation, the communicator's own preparation,
    random password generation and the environment lookup are foreign: their
    outcomes arrive as a `PrepareEnv` value. Durations are integer
    nanoseconds, as in Go's `time.Duration`. */
module LinodeConfig {
  import opened Wrappers
  import opened Interfaces

  const Second: int := 1_000_000_000
  const Minute: int := 60 * Second
  /** Wait for an instance state change, when not configured. */
  const DefaultStateTimeout: int := 5 * Minute
  /** Wait for an image to be created, when not configured. */
  const DefaultImageCreateTimeout: int := 10 * Minute
  const TokenEnvVar: string := "LINODE_TOKEN"
  const MaxTagLength: int := 255

  /** The part of the communicator settings the builder touches. */
  datatype Comm = Comm(sshPassword: string, sshPublicKey: string)

  /** `firewallId`, `metadata`, `interfaceGeneration` and `linodeInterfaces` are
      read by the create-Linode step but are not declared in config.go; they
      are part of this record so that the step can be modelled. */
  datatype Config = Config(
    token: string,
    interfaces: seq<Interface>,
    region: string,
    authorizedKeys: seq<string>,
    authorizedUsers: seq<string>,
    instanceType: string,
    instanceLabel: string,
    tags: Option<seq<string>>,
    image: string,
    swapSize: int,
    privateIp: bool,
    rootPass: string,
    imageLabel: string,
    description: string,
    stateTimeout: int,
    stackScriptData: map<string, string>,
    stackScriptId: int,
    imageCreateTimeout: int,
    comm: Comm,
    firewallId: Option<int>,
    metadata: Metadata,
    interfaceGeneration: string,
    linodeInterfaces: seq<LinodeInterface>)

  /** Outcomes of the foreign calls `Prepare` makes. */
  datatype PrepareEnv = PrepareEnv(
    envToken: string,                          // the LINODE_TOKEN environment variable
    imageLabelRender: Result<string, string>,  // rendering "packer-{{timestamp}}" for the image label
    labelRender: Result<string, string>,       // the same rendering for the instance label
    generatedPassword: Option<string>,         // None when the random source fails
    commErrors: seq<string>)                   // errors of the communicator's Prepare

  datatype ConfigError =
    | RenderImageName(cause: string)
    | RenderLabel(cause: string)
    | RootPassGeneration
    | CommError(message: string)
    | Required(field: string)
    | InvalidTag(tag: string)
  {
    /** The text the error prints. */
    function Message(): string {
      match this
      case RenderImageName(cause) => "Unable to render image name: " + cause
      case RenderLabel(cause) => "Unable to render Linode label: " + cause
      case RootPassGeneration => "Unable to generate root_pass: failed to generate random password"
      case CommError(message) => message
      case Required(field) => field + " is required"
      case InvalidTag(tag) => "invalid tag: " + tag
    }
  }

  datatype PrepareResult =
    | DecodeFailed(message: string)
    | Prepared(config: Config, errors: seq<ConfigError>)
  {
    /** `Prepare` returns an error value. */
    predicate Fails() {
      DecodeFailed? || |errors| > 0
    }
  }

  /** Go's `int(d.Seconds())` as exact arithmetic: the duration in whole
      seconds, truncated toward zero (Dafny's own division rounds negative
      values down). Go goes through a float64, which agrees with this for
      durations under 2^24 seconds and can round up to the next second
      above that. */
  function WholeSeconds(d: int): (s: int)
    ensures d >= 0 ==> 0 <= s && s * Second <= d < (s + 1) * Second
    ensures d < 0 ==> s <= 0 && (s - 1) * Second < d <= s * Second
  {
    if d >= 0 then d / Second else -((-d) / Second)
  }

  // ---- Tags ----

  /** A character of the POSIX class [[:alnum:]] (ASCII only, as in Go's
      regexp), or one of ':', '_', '-'. */
  predicate TagChar(ch: char) {
    ('0' <= ch <= '9') || ('A' <= ch <= 'Z') || ('a' <= ch <= 'z')
    || ch == ':' || ch == '_' || ch == '-'
  }

  /** The tag pattern ^[[:alnum:]:_-]{1,255}$, one Dafny character per rune. */
  ghost predicate ValidTag(t: string) {
    1 <= |t| <= MaxTagLength && forall k :: 0 <= k < |t| ==> TagChar(t[k])
  }

  /** Scans the tag character by character, as the compiled pattern does. */
  function AllTagChars(t: string): (r: bool)
    ensures r <==> forall k :: 0 <= k < |t| ==> TagChar(t[k])
  {
    if t == [] then true
    else TagChar(t[0]) && AllTagChars(t[1..])
  }

  function MatchesTagPattern(t: string): (r: bool)
    ensures r <==> ValidTag(t)
  {
    1 <= |t| <= MaxTagLength && AllTagChars(t)
  }

  /** One `InvalidTag` error per non-matching tag, in tag order: a single
      tag yields its own error or none, each invalid tag is reported as
      many times as it occurs, and `TagErrorsConcat` gives the order. */
  function TagErrors(tags: seq<string>): (r: seq<ConfigError>)
    ensures |r| <= |tags|
    ensures forall k :: 0 <= k < |r| ==> r[k].InvalidTag? && r[k].tag in tags && !ValidTag(r[k].tag)
    ensures forall t :: t in tags && !ValidTag(t) ==> InvalidTag(t) in r
    ensures r == [] <==> forall t :: t in tags ==> ValidTag(t)
    ensures |tags| == 1 ==> r == (if ValidTag(tags[0]) then [] else [InvalidTag(tags[0])])
  {
    if tags == [] then []
    else
      var rest := TagErrors(tags[1..]);
      assert forall t :: t in tags[1..] ==> t in tags;
      if MatchesTagPattern(tags[0]) then rest else [InvalidTag(tags[0])] + rest
  }

  /** An invalid tag is reported as many times as it occurs. */
  lemma {:induction false} TagErrorsCount(tags: seq<string>, t: string)
    requires !ValidTag(t)
    ensures multiset(TagErrors(tags))[InvalidTag(t)] == multiset(tags)[t]
  {
    if tags != [] {
      assert tags == [tags[0]] + tags[1..];
      TagErrorsCount(tags[1..], t);
    }
  }

  /** The errors of a list are the errors of its parts, in order. */
  lemma {:induction false} TagErrorsConcat(a: seq<string>, b: seq<string>)
    ensures TagErrors(a + b) == TagErrors(a) + TagErrors(b)
  {
    if a != [] {
      assert (a + b)[1..] == a[1..] + b;
      TagErrorsConcat(a[1..], b);
    } else {
      assert a + b == b;
    }
  }

  // ---- Prepare ----

  /** A value kept when set, otherwise replaced by the rendered default; a
      failed rendering leaves it empty and yields one error. */
  datatype Defaulted = Defaulted(value: string, errors: seq<ConfigError>)

  function DefaultLabel(current: string, render: Result<string, string>, isImage: bool): (r: Defaulted)
    ensures current != "" ==> r == Defaulted(current, [])
    ensures current == "" && render.Success? ==> r == Defaulted(render.value, [])
    ensures current == "" && render.Failure? ==>
      r.value == "" && r.errors == [if isImage then RenderImageName(render.error) else RenderLabel(render.error)]
  {
    if current != "" then Defaulted(current, [])
    else match render
      case Success(s) => Defaulted(s, [])
      case Failure(cause) => Defaulted(current, [if isImage then RenderImageName(cause) else RenderLabel(cause)])
  }

  function DefaultRootPass(current: string, generated: Option<string>): (r: Defaulted)
    ensures current != "" ==> r == Defaulted(current, [])
    ensures current == "" && generated.Some? ==> r == Defaulted(generated.value, [])
    ensures current == "" && generated.None? ==> r == Defaulted("", [RootPassGeneration])
  {
    if current != "" then Defaulted(current, [])
    else match generated
      case Some(p) => Defaulted(p, [])
      case None => Defaulted("", [RootPassGeneration])
  }

  /** A zero duration means "not configured". */
  function DefaultDuration(d: int, default: int): (r: int)
    ensures d != 0 ==> r == d
    ensures d == 0 ==> r == default
  {
    if d == 0 then default else d
  }

  function CommErrors(messages: seq<string>): (r: seq<ConfigError>)
    ensures |r| == |messages|
    ensures forall k :: 0 <= k < |r| ==> r[k] == CommError(messages[k])
  {
    if messages == [] then [] else [CommError(messages[0])] + CommErrors(messages[1..])
  }

  /** 1 for an empty setting. */
  function Blank(s: string): nat {
    if s == "" then 1 else 0
  }

  /** The position of a required setting in the order they are checked. */
  function CheckOrder(e: ConfigError): int {
    match e
    case Required(f) =>
      if f == "linode_token" then 0 else if f == "region" then 1 else if f == "instance_type" then 2 else 3
    case _ => 4
  }

  /** The "... is required" errors, in the order the fields are checked. */
  function RequiredErrors(c: Config): (r: seq<ConfigError>)
    ensures forall x :: x in r ==> x.Required?
    ensures Required("linode_token") in r <==> c.token == ""
    ensures Required("region") in r <==> c.region == ""
    ensures Required("instance_type") in r <==> c.instanceType == ""
    ensures Required("image") in r <==> c.image == ""
  {
    (if c.token == "" then [Required("linode_token")] else [])
    + (if c.region == "" then [Required("region")] else [])
    + (if c.instanceType == "" then [Required("instance_type")] else [])
    + (if c.image == "" then [Required("image")] else [])
  }

  /** One error per empty required setting (with `RequiredErrorsInOrder` and
      the membership facts above, this pins the list down). */
  lemma RequiredErrorsCount(c: Config)
    ensures |RequiredErrors(c)| == Blank(c.token) + Blank(c.region) + Blank(c.instanceType) + Blank(c.image)
  {
    var a := if c.token == "" then [Required("linode_token")] else [];
    var b := if c.region == "" then [Required("region")] else [];
    var d := if c.instanceType == "" then [Required("instance_type")] else [];
    var e := if c.image == "" then [Required("image")] else [];
    assert |a| == Blank(c.token) && |b| == Blank(c.region);
    assert |d| == Blank(c.instanceType) && |e| == Blank(c.image);
    assert RequiredErrors(c) == a + (b + (d + e));
  }

  /** The errors come in checking order: token, region, instance type, image. */
  lemma RequiredErrorsInOrder(c: Config)
    ensures InCheckOrder(RequiredErrors(c))
  {
    PartsInCheckOrder(
      if c.token == "" then [Required("linode_token")] else [],
      if c.region == "" then [Required("region")] else [],
      if c.instanceType == "" then [Required("instance_type")] else [],
      if c.image == "" then [Required("image")] else []);
  }

  lemma PartsInCheckOrder(a: seq<ConfigError>, b: seq<ConfigError>, d: seq<ConfigError>, e: seq<ConfigError>)
    requires a == [] || a == [Required("linode_token")]
    requires b == [] || b == [Required("region")]
    requires d == [] || d == [Required("instance_type")]
    requires e == [] || e == [Required("image")]
    ensures InCheckOrder(a + b + d + e)
  {
    assert a + b + d + e == a + (b + (d + e));
    CheckOrderOfFields();
    assert forall x :: x in e ==> CheckOrder(x) == 3;
    assert forall x :: x in d ==> CheckOrder(x) == 2;
    assert forall x :: x in b ==> CheckOrder(x) == 1;
    assert forall x :: x in a ==> CheckOrder(x) == 0;
    assert |e| > 0 ==> e[0] in e;
    assert |d| > 0 ==> d[0] in d;
    assert |b| > 0 ==> b[0] in b;
    assert |a| > 0 ==> a[0] in a;
    InCheckOrderPrepend(d, e);
    var de := d + e;
    assert |de| > 0 ==> de[0] in d || de[0] in e;
    var bde := b + de;
    assert |bde| > 0 ==> bde[0] in b || bde[0] in de;
    InCheckOrderPrepend(b, de);
    InCheckOrderPrepend(a, bde);
  }

  lemma CheckOrderOfFields()
    ensures CheckOrder(Required("linode_token")) == 0
    ensures CheckOrder(Required("region")) == 1
    ensures CheckOrder(Required("instance_type")) == 2
    ensures CheckOrder(Required("image")) == 3
  {
    assert "region"[0] != "linode_token"[0];
    assert "instance_type"[0] != "linode_token"[0] && "instance_type"[0] != "region"[0];
    assert "image"[0] != "linode_token"[0] && "image"[0] != "region"[0] && "image"[1] != "instance_type"[1];
  }

  predicate InCheckOrder(r: seq<ConfigError>) {
    forall i, j :: 0 <= i < j < |r| ==> CheckOrder(r[i]) < CheckOrder(r[j])
  }

  lemma InCheckOrderPrepend(a: seq<ConfigError>, s: seq<ConfigError>)
    requires |a| <= 1 && InCheckOrder(s)
    requires |a| == 1 && |s| > 0 ==> CheckOrder(a[0]) < CheckOrder(s[0])
    ensures InCheckOrder(a + s)
  {
    if |a| == 1 {
      forall i, j | 0 <= i < j < |a + s|
        ensures CheckOrder((a + s)[i]) < CheckOrder((a + s)[j])
      {
        if i == 0 {
          assert (a + s)[j] == s[j - 1];
          assert j - 1 == 0 || CheckOrder(s[0]) < CheckOrder(s[j - 1]);
        } else {
          assert (a + s)[i] == s[i - 1] && (a + s)[j] == s[j - 1];
        }
      }
    } else {
      assert a + s == s;
    }
  }

  /** The configuration after the defaults are filled in. */
  function ApplyDefaults(c: Config, env: PrepareEnv): (d: Config)
    ensures d.token == (if c.token == "" then env.envToken else c.token)
    ensures d.tags == Some(c.tags.GetOr([]))
    ensures d.region == c.region && d.instanceType == c.instanceType && d.image == c.image
  {
    var rootPass := DefaultRootPass(c.rootPass, env.generatedPassword).value;
    c.(
      token := if c.token == "" then env.envToken else c.token,
      imageLabel := DefaultLabel(c.imageLabel, env.imageLabelRender, true).value,
      instanceLabel := DefaultLabel(c.instanceLabel, env.labelRender, false).value,
      rootPass := rootPass,
      stateTimeout := DefaultDuration(c.stateTimeout, DefaultStateTimeout),
      imageCreateTimeout := DefaultDuration(c.imageCreateTimeout, DefaultImageCreateTimeout),
      comm := c.comm.(sshPassword := rootPass),
      tags := Some(c.tags.GetOr([])))
  }

  /** The errors filling in the defaults produced: rendering either label,
      generating the root password. */
  function DefaultErrors(c: Config, env: PrepareEnv): (r: seq<ConfigError>)
    ensures forall x :: x in r ==> x.RenderImageName? || x.RenderLabel? || x.RootPassGeneration?
    ensures r == [] <==>
      && !(c.imageLabel == "" && env.imageLabelRender.Failure?)
      && !(c.instanceLabel == "" && env.labelRender.Failure?)
      && !(c.rootPass == "" && env.generatedPassword.None?)
  {
    DefaultLabel(c.imageLabel, env.imageLabelRender, true).errors
    + DefaultLabel(c.instanceLabel, env.labelRender, false).errors
    + DefaultRootPass(c.rootPass, env.generatedPassword).errors
  }

  function Prepare(decoded: Result<Config, string>, env: PrepareEnv): (r: PrepareResult)
    ensures decoded.Failure? <==> r.DecodeFailed?
  {
    match decoded
    case Failure(msg) => DecodeFailed(msg)
    case Success(c) =>
      var d := ApplyDefaults(c, env);
      Prepared(d, DefaultErrors(c, env) + CommErrors(env.commErrors) + RequiredErrors(d) + TagErrors(d.tags.value))
  }

  // ---- What Prepare promises ----

  /** Defaults: unset timeouts get 5 and 10 minutes, an empty token falls
      back to the environment, an empty root password is replaced by a
      generated one (left empty when generation fails), the SSH password is
      the root password, nil tags become an empty list, an empty image or
      instance label takes its rendered default (staying empty when the
      template fails to render), and every other
      field is left as decoded. */
  lemma PrepareDefaults(c: Config, env: PrepareEnv)
    ensures var d := Prepare(Success(c), env).config;
      && (c.stateTimeout == 0 ==> d.stateTimeout == 5 * Minute)
      && (c.stateTimeout != 0 ==> d.stateTimeout == c.stateTimeout)
      && (c.imageCreateTimeout == 0 ==> d.imageCreateTimeout == 10 * Minute)
      && (c.imageCreateTimeout != 0 ==> d.imageCreateTimeout == c.imageCreateTimeout)
      && (c.token != "" ==> d.token == c.token)
      && (c.token == "" ==> d.token == env.envToken)
      && (c.rootPass != "" ==> d.rootPass == c.rootPass)
      && (c.rootPass == "" && env.generatedPassword.Some? ==> d.rootPass == env.generatedPassword.value)
      && (c.rootPass == "" && env.generatedPassword.None? ==> d.rootPass == "")
      && d.comm.sshPassword == d.rootPass
      && d.comm.sshPublicKey == c.comm.sshPublicKey
      && (c.tags.Some? ==> d.tags == c.tags)
      && (c.tags.None? ==> d.tags == Some([]))
      && d.region == c.region && d.instanceType == c.instanceType && d.image == c.image
      && d.interfaces == c.interfaces && d.linodeInterfaces == c.linodeInterfaces
      && d.authorizedKeys == c.authorizedKeys && d.authorizedUsers == c.authorizedUsers
      && d.description == c.description && d.swapSize == c.swapSize
      && d.privateIp == c.privateIp && d.stackScriptId == c.stackScriptId
      && d.stackScriptData == c.stackScriptData && d.firewallId == c.firewallId
      && d.metadata == c.metadata && d.interfaceGeneration == c.interfaceGeneration
      && (c.imageLabel != "" ==> d.imageLabel == c.imageLabel)
      && (c.imageLabel == "" && env.imageLabelRender.Success? ==> d.imageLabel == env.imageLabelRender.value)
      && (c.imageLabel == "" && env.imageLabelRender.Failure? ==> d.imageLabel == "")
      && (c.instanceLabel != "" ==> d.instanceLabel == c.instanceLabel)
      && (c.instanceLabel == "" && env.labelRender.Success? ==> d.instanceLabel == env.labelRender.value)
      && (c.instanceLabel == "" && env.labelRender.Failure? ==> d.instanceLabel == "")
  {
  }

  /** Each missing required setting produces its own error, independently of
      the others; the token only counts as missing when the environment does
      not supply it either. */
  lemma PrepareRequiredErrors(c: Config, env: PrepareEnv)
    ensures var errs := Prepare(Success(c), env).errors;
      && (Required("linode_token") in errs <==> c.token == "" && env.envToken == "")
      && (Required("region") in errs <==> c.region == "")
      && (Required("instance_type") in errs <==> c.instanceType == "")
      && (Required("image") in errs <==> c.image == "")
  {
    RequiredComeFromRequiredErrors(c, env, Required("linode_token"));
    RequiredComeFromRequiredErrors(c, env, Required("region"));
    RequiredComeFromRequiredErrors(c, env, Required("instance_type"));
    RequiredComeFromRequiredErrors(c, env, Required("image"));
  }

  /** Only the required-settings check contributes "is required" errors. */
  lemma RequiredComeFromRequiredErrors(c: Config, env: PrepareEnv, x: ConfigError)
    requires x.Required?
    ensures x in Prepare(Success(c), env).errors <==> x in RequiredErrors(ApplyDefaults(c, env))
  {
    var d := ApplyDefaults(c, env);
    var e1, e2, e3 := DefaultErrors(c, env), CommErrors(env.commErrors), TagErrors(d.tags.value);
    assert Prepare(Success(c), env).errors == e1 + e2 + RequiredErrors(d) + e3;
    assert x !in e1 && x !in e3;
    assert x !in e2;
  }

  /** Exactly the tags that do not match the pattern are reported. */
  lemma PrepareTagErrors(c: Config, env: PrepareEnv, t: string)
    ensures InvalidTag(t) in Prepare(Success(c), env).errors <==> t in c.tags.GetOr([]) && !ValidTag(t)
  {
    var d := ApplyDefaults(c, env);
    var e1, e2, e3 := DefaultErrors(c, env), CommErrors(env.commErrors), RequiredErrors(d);
    var front, tagErrors := e1 + e2 + e3, TagErrors(d.tags.value);
    assert Prepare(Success(c), env).errors == front + tagErrors;
    assert InvalidTag(t) !in e1 && InvalidTag(t) !in e2 && InvalidTag(t) !in e3;
    assert InvalidTag(t) !in front;
  }

  /** Characters outside the class are rejected: of the tags "foo" and
      "bar=baz", only the second is reported. */
  lemma TagErrorsRejectPunctuation()
    ensures TagErrors(["foo", "bar=baz"]) == [InvalidTag("bar=baz")]
  {
    var foo, bar := "foo", "bar=baz";
    assert TagChar(foo[0]) && TagChar(foo[1]) && TagChar(foo[2]);
    assert AllTagChars(foo);
    assert !TagChar(bar[3]);
    assert !AllTagChars(bar);
    assert [foo, bar][1..] == [bar];
    assert TagErrors([bar]) == [InvalidTag(bar)];
  }

  /** Some setting or foreign outcome that makes `Prepare` report an error,
      stated without reference to how the errors are collected. */
  ghost predicate HasProblem(c: Config, env: PrepareEnv) {
    || (c.imageLabel == "" && env.imageLabelRender.Failure?)
    || (c.instanceLabel == "" && env.labelRender.Failure?)
    || (c.rootPass == "" && env.generatedPassword.None?)
    || |env.commErrors| > 0
    || (c.token == "" && env.envToken == "")
    || c.region == "" || c.instanceType == "" || c.image == ""
    || (exists t :: t in c.tags.GetOr([]) && !ValidTag(t))
  }

  /** Errors accumulate: `Prepare` fails exactly when at least one problem
      is present, whichever it is. */
  lemma PrepareFailsIff(c: Config, env: PrepareEnv)
    ensures Prepare(Success(c), env).Fails() <==> HasProblem(c, env)
  {
    var d := ApplyDefaults(c, env);
    var tags := d.tags.value;
    var errs := Prepare(Success(c), env).errors;
    assert errs == DefaultErrors(c, env) + CommErrors(env.commErrors) + RequiredErrors(d) + TagErrors(tags);
    if HasProblem(c, env) {
      if exists t :: t in c.tags.GetOr([]) && !ValidTag(t) {
        var t :| t in c.tags.GetOr([]) && !ValidTag(t);
        assert InvalidTag(t) in TagErrors(tags);
      } else if |env.commErrors| > 0 {
        assert CommErrors(env.commErrors)[0] in errs;
      }
    }
  }

  /** A configuration `Prepare` leaves alone: required settings present,
      timeouts set, tags present and valid, labels and root password set and
      the SSH password equal to the root password. */
  ghost predicate Settled(c: Config) {
    && c.token != "" && c.region != "" && c.instanceType != "" && c.image != ""
    && c.imageLabel != "" && c.instanceLabel != "" && c.rootPass != ""
    && c.stateTimeout != 0 && c.imageCreateTimeout != 0
    && c.comm.sshPassword == c.rootPass
    && c.tags.Some? && (forall t :: t in c.tags.value ==> ValidTag(t))
  }

  /** A successful `Prepare` yields a configuration whose settings are
      complete and valid (labels aside, which a renderer may leave empty). */
  lemma PrepareSuccessIsValid(c: Config, env: PrepareEnv)
    requires !Prepare(Success(c), env).Fails()
    ensures var d := Prepare(Success(c), env).config;
      && d.token != "" && d.region != "" && d.instanceType != "" && d.image != ""
      && d.stateTimeout != 0 && d.imageCreateTimeout != 0
      && d.comm.sshPassword == d.rootPass
      && d.tags.Some? && (forall t :: t in d.tags.value ==> ValidTag(t))
  {
    PrepareFailsIff(c, env);
    PrepareRequiredErrors(c, env);
  }

  /** `Prepare` is idempotent: a settled configuration comes back unchanged
      and without errors, provided the communicator reports none. */
  lemma PrepareFixpoint(c: Config, env: PrepareEnv)
    requires Settled(c) && env.commErrors == []
    ensures Prepare(Success(c), env) == Prepared(c, [])
  {
    assert ApplyDefaults(c, env) == c;
  }
}
