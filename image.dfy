/**
 * Container images as the client describes them: the recipe values built by
 * `debian_slim` and `extend_image`, the Docker Hub tag resolution, and the
 * `ImageGetOrCreate` request plus the `ImageJoin` polling of
 * `CustomImage._create_impl`.
 *
 * The session's `create_object`, the `ImageGetOrCreate` call and the stream
 * of `ImageJoin` responses are parameters; `Image.use(None, label)` is the
 * value `Use(label)`.
 */
module Images {
  import opened Wrappers
  import opened Strings
  import opened Api

  type Byte = b: int | 0 <= b < 256

  /** A value handed to `_make_bytes`: a `str`, a `bytes`, or anything else. */
  datatype PyText = Str(text: string) | Bytes(bytes: seq<Byte>) | OtherValue(typeName: string)

  datatype BytesError =
    | NotStrOrBytes(typeName: string)   // the `assert type(s) in (str, bytes)`
    | NotAscii(position: nat)           // `UnicodeEncodeError` at the first offending character

  /** An image: a named one from the registry, or a recipe. */
  datatype Image =
    | Use(tag: string)
    | Custom(baseImages: seq<(string, Image)>, contextFiles: seq<(string, seq<Byte>)>,
             dockerfileCommands: seq<PyText>, localPython: Option<string>, version: Option<string>)

  // ---------------------------------------------------------------- _make_bytes

  predicate IsAsciiChar(c: char) {
    (c as int) < 128
  }

  predicate IsAscii(s: string) {
    forall i :: 0 <= i < |s| ==> IsAsciiChar(s[i])
  }

  /** The index of the first character the `ascii` codec cannot encode, or `|s|`. */
  function FirstNonAscii(s: string): (i: nat)
    ensures i <= |s|
    ensures forall j :: 0 <= j < i ==> IsAsciiChar(s[j])
    ensures i < |s| ==> !IsAsciiChar(s[i])
  {
    if |s| == 0 then 0
    else if !IsAsciiChar(s[0]) then 0
    else 1 + FirstNonAscii(s[1..])
  }

  function AsciiEncode(s: string): (bs: seq<Byte>)
    requires IsAscii(s)
  {
    seq(|s|, i requires 0 <= i < |s| => s[i] as int)
  }

  /** Bytes below 128 read back as characters. */
  function AsciiDecode(bs: seq<Byte>): string
    requires forall i :: 0 <= i < |bs| ==> bs[i] < 128
  {
    seq(|bs|, i requires 0 <= i < |bs| => bs[i] as char)
  }

  /** `_make_bytes`: a `str` is encoded as ASCII, `bytes` pass through, anything else is refused. */
  function MakeBytes(v: PyText): (r: Result<seq<Byte>, BytesError>)
    ensures v.Bytes? ==> r == Ok(v.bytes)
    ensures v.OtherValue? ==> r == Err(NotStrOrBytes(v.typeName))
    ensures v.Str? ==> (r.Ok? <==> IsAscii(v.text))
  {
    match v
    case Str(s) =>
      var k := FirstNonAscii(s);
      if k < |s| then Err(NotAscii(k)) else Ok(AsciiEncode(s))
    case Bytes(bs) => Ok(bs)
    case OtherValue(t) => Err(NotStrOrBytes(t))
  }

  /**
   * A `str` becomes one byte per character, its code point; the error names
   * the first character outside ASCII.
   */
  lemma MakeBytesOfStr(s: string)
    ensures var r := MakeBytes(Str(s));
      (r.Ok? ==> (|r.value| == |s| && forall i :: 0 <= i < |s| ==> r.value[i] == s[i] as int < 128))
      && (r.Err? ==> (r.error.NotAscii? && r.error.position < |s| && !IsAsciiChar(s[r.error.position])
                      && forall j :: 0 <= j < r.error.position ==> IsAsciiChar(s[j])))
  {
  }

  /** Encoding an ASCII `str` and decoding the bytes gives the `str` back. */
  lemma AsciiRoundTrip(s: string)
    requires IsAscii(s)
    ensures MakeBytes(Str(s)).Ok?
    ensures forall i :: 0 <= i < |MakeBytes(Str(s)).value| ==> MakeBytes(Str(s)).value[i] < 128
    ensures AsciiDecode(MakeBytes(Str(s)).value) == s
  {
    var bs := MakeBytes(Str(s)).value;
    assert forall i :: 0 <= i < |s| ==> (s[i] as int) as char == s[i];
    assert AsciiDecode(bs) == s;
  }

  // ----------------------------------------------------------------- is_inside

  /** `Image.is_inside`: the image has an id and the container was started for it. */
  function IsInside(objectId: Option<string>, envImageId: Option<string>): (inside: bool)
    ensures inside <==> objectId.Some? && envImageId.Some? && objectId.value == envImageId.value
  {
    objectId.Some? && envImageId == objectId
  }

  // -------------------------------------------------- dockerhub_python_version

  datatype VersionError = UnlistedVersion(majorMinor: string)   // the `KeyError` of the table lookup

  /** The version asked for: the argument, else the configured one, else the running interpreter's. */
  function ResolveVersion(requested: Option<string>, configured: Option<string>, running: (nat, nat)): string {
    if requested.Some? then requested.value
    else if configured.Some? then configured.value
    else NatToString(running.0) + "." + NatToString(running.1)
  }

  /** `".".join(v.split(".")[:2])` */
  function MajorMinor(v: string): string {
    var parts := Split(v, '.');
    Join(if |parts| <= 2 then parts else parts[..2], '.')
  }

  /** The table of the newest Docker Hub micro version per major.minor. */
  function LatestMicro(majorMinor: string): (micro: Option<string>)
    ensures micro.Some? ==>
      |majorMinor| >= 3 && majorMinor[..2] == "3." && NoDot(majorMinor[2..]) && NoDot(micro.value)
  {
    if majorMinor == "3.10" then Some("1")
    else if majorMinor == "3.9" then Some("9")
    else if majorMinor == "3.8" then Some("12")
    else if majorMinor == "3.7" then Some("12")
    else if majorMinor == "3.6" then Some("15")
    else None
  }

  function DockerhubPythonVersion(requested: Option<string>, configured: Option<string>, running: (nat, nat))
    : (r: Result<string, VersionError>)
    ensures r.Err? ==> r.error == UnlistedVersion(MajorMinor(ResolveVersion(requested, configured, running)))
  {
    var mm := MajorMinor(ResolveVersion(requested, configured, running));
    match LatestMicro(mm)
    case None => Err(UnlistedVersion(mm))
    case Some(micro) => Ok(mm + "." + micro)
  }

  predicate NoDot(s: string) {
    forall j :: 0 <= j < |s| ==> s[j] != '.'
  }

  lemma MajorMinorOfParts(parts: seq<string>)
    requires |parts| >= 2
    requires forall i, j :: 0 <= i < |parts| && 0 <= j < |parts[i]| ==> parts[i][j] != '.'
    ensures MajorMinor(Join(parts, '.')) == parts[0] + "." + parts[1]
  {
    SplitJoin(parts, '.');
    var two := parts[..2];
    assert two == [parts[0]] + [parts[1]];
    JoinCons(parts[0], [parts[1]], '.');
    assert Join(two, '.') == parts[0] + ['.'] + parts[1];
  }

  lemma MajorMinorOfThree(a: string, b: string, c: string)
    requires NoDot(a) && NoDot(b) && NoDot(c)
    ensures MajorMinor(a + "." + b + "." + c) == a + "." + b
  {
    var parts := [a, b, c];
    JoinCons(b, [c], '.');
    JoinCons(a, [b, c], '.');
    assert [a] + [b, c] == parts;
    assert Join(parts, '.') == a + "." + b + "." + c;
    MajorMinorOfParts(parts);
  }

  lemma MajorMinorOfTwo(a: string, b: string)
    requires NoDot(a) && NoDot(b)
    ensures MajorMinor(a + "." + b) == a + "." + b
  {
    JoinCons(a, [b], '.');
    assert [a] + [b] == [a, b];
    MajorMinorOfParts([a, b]);
  }

  /**
   * Whatever follows the minor version is dropped and the table's micro
   * version takes its place; a major.minor the table lacks is an error.
   */
  lemma {:induction false} KeepsMajorMinor(major: string, minor: string, rest: string)
    requires NoDot(major) && NoDot(minor)
    ensures var r := DockerhubPythonVersion(Some(major + "." + minor + rest), None, (0, 0));
      var mm := major + "." + minor;
      (rest == [] || rest[0] == '.') ==>
        (r.Ok? <==> LatestMicro(mm).Some?) &&
        (r.Ok? ==> r.value == mm + "." + LatestMicro(mm).value) &&
        (r.Err? ==> r.error == UnlistedVersion(mm))
  {
    var mm := major + "." + minor;
    if rest == [] {
      assert mm + rest == mm;
      MajorMinorOfTwo(major, minor);
    } else if rest[0] == '.' {
      var tail := rest[1..];
      var parts := Split(tail, '.');
      JoinSplit(tail, '.');
      var all := [major, minor] + parts;
      JoinCons(minor, parts, '.');
      JoinCons(major, [minor] + parts, '.');
      assert [major] + ([minor] + parts) == all;
      assert rest == ['.'] + tail;
      assert Join(all, '.') == major + "." + minor + rest;
      MajorMinorOfParts(all);
    }
  }

  /** The running interpreter's version is written `major.minor`. */
  lemma RunningVersionSplits(running: (nat, nat))
    ensures MajorMinor(ResolveVersion(None, None, running)) == ResolveVersion(None, None, running)
  {
    MajorMinorOfTwo(NatToString(running.0), NatToString(running.1));
  }

  /** A resolved tag resolves to itself. */
  lemma DockerhubIdempotent(requested: Option<string>, configured: Option<string>, running: (nat, nat),
                            again: Option<string>, againRunning: (nat, nat))
    requires DockerhubPythonVersion(requested, configured, running).Ok?
    ensures DockerhubPythonVersion(Some(DockerhubPythonVersion(requested, configured, running).value), again, againRunning)
         == DockerhubPythonVersion(requested, configured, running)
  {
    var mm := MajorMinor(ResolveVersion(requested, configured, running));
    var micro := LatestMicro(mm).value;
    assert mm == "3" + "." + mm[2..];
    MajorMinorOfThree("3", mm[2..], micro);
  }

  lemma PatchReleaseResolves()
    ensures DockerhubPythonVersion(Some("3.10.4"), None, (3, 8)) == Ok("3.10.1")
  {
    assert "3" + "." + "10" + "." + "4" == "3.10.4";
    MajorMinorOfThree("3", "10", "4");
    assert "3" + "." + "10" == "3.10";
    assert "3.10" + "." + "1" == "3.10.1";
  }

  lemma UnlistedVersionFails()
    ensures DockerhubPythonVersion(Some("2.7.18"), None, (3, 8)) == Err(UnlistedVersion("2.7"))
  {
    assert "2" + "." + "7" + "." + "18" == "2.7.18";
    MajorMinorOfThree("2", "7", "18");
    assert "2" + "." + "7" == "2.7";
    assert "2.7"[0] == '2';
  }

  // -------------------------------------------------------------- debian_slim

  function BaseLabel(version: string): string {
    "python-" + version + "-slim-buster-base"
  }

  function BuilderLabel(version: string): string {
    "python-" + version + "-slim-buster-builder"
  }

  const PipWheelPrefix := "RUN pip wheel "
  const PipWheelSuffix := " -w /tmp/wheels"

  /** The stage that builds wheels for the packages on the builder image and installs them. */
  function BuilderBlock(packages: seq<string>): (block: seq<PyText>)
    ensures |block| == 6
  {
    [ Str("FROM builder as builder-vehicle"),
      Str(PipWheelPrefix + Join(packages, ' ') + PipWheelSuffix),
      Str("FROM target"),
      Str("COPY --from=builder-vehicle /tmp/wheels /tmp/wheels"),
      Str("RUN pip install /tmp/wheels/*"),
      Str("RUN rm -rf /tmp/wheels") ]
  }

  /** The package list read back from a `pip wheel` line. */
  function WheelPackages(line: string): seq<string>
    requires |line| >= |PipWheelPrefix| + |PipWheelSuffix|
  {
    Split(line[|PipWheelPrefix|..|line| - |PipWheelSuffix|], ' ')
  }

  /** The `pip wheel` line names exactly the packages asked for, in order. */
  lemma WheelLineNamesPackages(packages: seq<string>)
    requires |packages| >= 1
    requires forall i, j :: 0 <= i < |packages| && 0 <= j < |packages[i]| ==> packages[i][j] != ' '
    ensures BuilderBlock(packages)[1].Str?
    ensures |BuilderBlock(packages)[1].text| >= |PipWheelPrefix| + |PipWheelSuffix|
    ensures WheelPackages(BuilderBlock(packages)[1].text) == packages
  {
    var joined := Join(packages, ' ');
    var line := PipWheelPrefix + joined + PipWheelSuffix;
    assert line[|PipWheelPrefix|..|line| - |PipWheelSuffix|] == joined;
    SplitJoin(packages, ' ');
  }

  function RunLines(commands: seq<string>): (lines: seq<PyText>)
    ensures |lines| == |commands|
  {
    seq(|commands|, i requires 0 <= i < |commands| => Str("RUN " + commands[i]))
  }

  function OrEmpty<T>(xs: Option<seq<T>>): seq<T> {
    if xs.Some? then xs.value else []
  }

  /** The image `debian_slim` describes for a resolved version. */
  function SlimRecipe(version: string, extraCommands: Option<seq<string>>, pythonPackages: Option<seq<string>>): Image {
    if extraCommands.None? && pythonPackages.None? then Use(BaseLabel(version))
    else
      Custom([("base", Use(BaseLabel(version)))]
               + (if pythonPackages.Some? then [("builder", Use(BuilderLabel(version)))] else []),
             [],
             [Str("FROM base as target")] + RunLines(OrEmpty(extraCommands))
               + (if pythonPackages.Some? then BuilderBlock(pythonPackages.value) else []),
             None, None)
  }

  /**
   * The recipe starts from the base image as `target`, runs the extra
   * commands in order, and only when packages are given adds the builder
   * image and the stage that builds and installs their wheels.
   */
  lemma SlimRecipeShape(version: string, extraCommands: Option<seq<string>>, pythonPackages: Option<seq<string>>)
    requires extraCommands.Some? || pythonPackages.Some?
    ensures var img := SlimRecipe(version, extraCommands, pythonPackages);
      var extra := OrEmpty(extraCommands);
      img.Custom? && img.contextFiles == []
      && |img.baseImages| == (if pythonPackages.Some? then 2 else 1)
      && img.localPython.None? && img.version.None?
      && img.baseImages[0] == ("base", Use(BaseLabel(version)))
      && (pythonPackages.Some? ==> img.baseImages[1] == ("builder", Use(BuilderLabel(version))))
      && |img.dockerfileCommands| == 1 + |extra| + (if pythonPackages.Some? then 6 else 0)
      && img.dockerfileCommands[0] == Str("FROM base as target")
      && (forall i :: 0 <= i < |extra| ==> img.dockerfileCommands[1 + i] == Str("RUN " + extra[i]))
      && (pythonPackages.Some? ==> img.dockerfileCommands[1 + |extra|..] == BuilderBlock(pythonPackages.value))
  {
    var img := SlimRecipe(version, extraCommands, pythonPackages);
    var extra := OrEmpty(extraCommands);
    var head := [Str("FROM base as target")] + RunLines(extra);
    forall i | 0 <= i < |extra| ensures img.dockerfileCommands[1 + i] == Str("RUN " + extra[i]) {
      assert img.dockerfileCommands[1 + i] == head[1 + i];
    }
    if pythonPackages.Some? {
      assert img.dockerfileCommands[|head|..] == BuilderBlock(pythonPackages.value);
    }
  }

  /**
   * `debian_slim` (the body its factory decorator wraps): the base image
   * alone when nothing is added, otherwise a recipe on top of it; a version
   * the table lacks fails before anything is built.
   */
  method DebianSlim(extraCommands: Option<seq<string>>, pythonPackages: Option<seq<string>>,
                    requested: Option<string>, configured: Option<string>, running: (nat, nat))
    returns (r: Result<Image, VersionError>)
    ensures r == match DockerhubPythonVersion(requested, configured, running)
                 case Err(e) => Err(e)
                 case Ok(v) => Ok(SlimRecipe(v, extraCommands, pythonPackages))
  {
    var resolved := DockerhubPythonVersion(requested, configured, running);
    if resolved.Err? {
      return Err(resolved.error);
    }
    var version := resolved.value;
    var baseImage := Use(BaseLabel(version));
    var builderImage := Use(BuilderLabel(version));

    if extraCommands.None? && pythonPackages.None? {
      return Ok(baseImage);
    }

    var commands := [Str("FROM base as target")];
    var baseImages := [("base", baseImage)];
    if extraCommands.Some? {
      commands := commands + RunLines(extraCommands.value);
    }
    ghost var head := commands;
    assert head == [Str("FROM base as target")] + RunLines(OrEmpty(extraCommands));
    if pythonPackages.Some? {
      // "builder" is a key the dict does not have yet, so it goes last.
      baseImages := baseImages + [("builder", builderImage)];
      commands := commands + BuilderBlock(pythonPackages.value);
    }
    assert commands == head + (if pythonPackages.Some? then BuilderBlock(pythonPackages.value) else []);
    assert baseImages == [("base", Use(BaseLabel(version)))]
               + (if pythonPackages.Some? then [("builder", Use(BuilderLabel(version)))] else []);
    assert Custom(baseImages, [], commands, None, None) == SlimRecipe(version, extraCommands, pythonPackages);
    return Ok(Custom(baseImages, [], commands, None, None));
  }

  // ------------------------------------------------------------- extend_image

  function ExtendImage(base: Image, extraCommands: seq<PyText>): (img: Image)
    ensures img.Custom? && img.baseImages == [("base", base)] && img.contextFiles == []
    ensures |img.dockerfileCommands| == 1 + |extraCommands|
    ensures img.dockerfileCommands[0] == Str("FROM base") && img.dockerfileCommands[1..] == extraCommands
    ensures img.localPython.None? && img.version.None?
  {
    Custom([("base", base)], [], [Str("FROM base")] + extraCommands, None, None)
  }

  // ------------------------------------------------------------ _create_impl

  datatype BaseImagePb = BaseImagePb(dockerTag: string, imageId: string)

  datatype ContextFilePb = ContextFilePb(filename: string, data: seq<Byte>)

  datatype ImageDefinition = ImageDefinition(
    baseImages: seq<BaseImagePb>, dockerfileCommands: seq<seq<Byte>>, contextFiles: seq<ContextFilePb>,
    localPython: Option<string>, version: Option<string>)

  datatype GetOrCreateRequest = GetOrCreateRequest(sessionId: string, image: ImageDefinition)

  datatype JoinRequest = JoinRequest(imageId: string, sessionId: string)

  datatype ImageError =
    | BadCommand(cause: BytesError)
    | RemoteError(message: string)
    | StillBuilding   // the responses given ran out while the status was still unset

  /** Each base image's id, paired with its docker tag, in the dict's order. */
  function BaseImagePbs(baseImages: seq<(string, Image)>, createObject: Image -> string): (pbs: seq<BaseImagePb>)
    ensures |pbs| == |baseImages|
    ensures forall i :: 0 <= i < |baseImages| ==>
      pbs[i] == BaseImagePb(baseImages[i].0, createObject(baseImages[i].1))
  {
    seq(|baseImages|, i requires 0 <= i < |baseImages| => BaseImagePb(baseImages[i].0, createObject(baseImages[i].1)))
  }

  function ContextFilePbs(files: seq<(string, seq<Byte>)>): (pbs: seq<ContextFilePb>)
    ensures |pbs| == |files|
    ensures forall i :: 0 <= i < |files| ==> pbs[i] == ContextFilePb(files[i].0, files[i].1)
  {
    seq(|files|, i requires 0 <= i < |files| => ContextFilePb(files[i].0, files[i].1))
  }

  /** `[_make_bytes(s) for s in commands]`: stops at the first command that cannot be converted. */
  function CommandBytes(commands: seq<PyText>): (r: Result<seq<seq<Byte>>, BytesError>)
    ensures r.Ok? ==> (|r.value| == |commands|
      && forall i :: 0 <= i < |commands| ==> MakeBytes(commands[i]) == Ok(r.value[i]))
    ensures r.Err? ==> exists k :: (0 <= k < |commands| && MakeBytes(commands[k]) == Err(r.error)
      && forall j :: 0 <= j < k ==> MakeBytes(commands[j]).Ok?)
  {
    if |commands| == 0 then Ok([])
    else match MakeBytes(commands[0])
      case Err(e) => Err(e)
      case Ok(first) =>
        match CommandBytes(commands[1..])
        case Err(e) =>
          assert forall j :: 1 <= j < |commands| ==> commands[j] == commands[1..][j - 1];
          Err(e)
        case Ok(rest) =>
          assert forall j :: 1 <= j < |commands| ==> commands[j] == commands[1..][j - 1];
          Ok([first] + rest)
  }

  /** The `api_pb2.Image` a recipe turns into. */
  function Definition(img: Image, createObject: Image -> string): (r: Result<ImageDefinition, BytesError>)
    requires img.Custom?
    ensures r.Ok? <==> CommandBytes(img.dockerfileCommands).Ok?
    ensures r.Err? ==> r.error == CommandBytes(img.dockerfileCommands).error
    ensures r.Ok? ==> (r.value.dockerfileCommands == CommandBytes(img.dockerfileCommands).value
      && r.value.baseImages == BaseImagePbs(img.baseImages, createObject)
      && r.value.contextFiles == ContextFilePbs(img.contextFiles)
      && r.value.localPython == img.localPython && r.value.version == img.version)
  {
    match CommandBytes(img.dockerfileCommands)
    case Err(e) => Err(e)
    case Ok(commands) =>
      Ok(ImageDefinition(BaseImagePbs(img.baseImages, createObject), commands,
                         ContextFilePbs(img.contextFiles), img.localPython, img.version))
  }

  /** What a join response with a set status decides. */
  function Decide(imageId: string, result: GenericResult): (r: Result<string, ImageError>)
    requires result.status != Unspecified
    ensures r.Ok? <==> result.status == Success
    ensures r.Ok? ==> r.value == imageId
    ensures result.status == Failure ==> r == Err(RemoteError(result.exception))
    ensures r.Err? ==> r.error.RemoteError?
  {
    match result.status
    case Failure => Err(RemoteError(result.exception))
    case Success => Ok(imageId)
    case Unrecognised(code) => Err(RemoteError("Unknown status " + IntToString(code) + "!"))
  }

  function IntToString(n: int): string {
    if n < 0 then "-" + NatToString(-n) else NatToString(n)
  }

  lemma IntToStringInjective(m: int, n: int)
    requires IntToString(m) == IntToString(n)
    ensures m == n
  {
    var sm, sn := IntToString(m), IntToString(n);
    assert IsDigit(NatToString(if m < 0 then -m else m)[0]);
    assert IsDigit(NatToString(if n < 0 then -n else n)[0]);
    if m < 0 && n < 0 {
      assert sm[1..] == NatToString(-m) && sn[1..] == NatToString(-n);
      NatToStringInjective(-m, -n);
    } else if m >= 0 && n >= 0 {
      NatToStringInjective(m, n);
    }
  }

  /** Different unknown status codes give different error messages. */
  lemma UnknownStatusMessages(imageId: string, a: GenericResult, b: GenericResult)
    requires a.status.Unrecognised? && b.status.Unrecognised? && a.status != b.status
    ensures Decide(imageId, a) != Decide(imageId, b)
  {
    var prefix := "Unknown status ";
    var ma := prefix + IntToString(a.status.code) + "!";
    var mb := prefix + IntToString(b.status.code) + "!";
    if ma == mb {
      assert IntToString(a.status.code) == ma[|prefix|..|ma| - 1];
      assert IntToString(b.status.code) == mb[|prefix|..|mb| - 1];
      IntToStringInjective(a.status.code, b.status.code);
    }
  }

  /** The number of leading join responses whose status is unset. */
  function UnsetPrefix(polls: seq<GenericResult>): (k: nat)
    ensures k <= |polls|
    ensures forall j :: 0 <= j < k ==> polls[j].status == Unspecified
    ensures k < |polls| ==> polls[k].status != Unspecified
  {
    if |polls| == 0 || polls[0].status != Unspecified then 0
    else 1 + UnsetPrefix(polls[1..])
  }

  /** The outcome of polling `ImageJoin` against the given responses, one step at a time. */
  function JoinOutcome(imageId: string, polls: seq<GenericResult>): Result<string, ImageError> {
    if |polls| == 0 then Err(StillBuilding)
    else if polls[0].status == Unspecified then JoinOutcome(imageId, polls[1..])
    else Decide(imageId, polls[0])
  }

  /** How many `ImageJoin` requests the loop sends before it stops. */
  function PollsSent(polls: seq<GenericResult>): nat {
    if |polls| == 0 then 0
    else if polls[0].status == Unspecified then 1 + PollsSent(polls[1..])
    else 1
  }

  /**
   * Unset responses are skipped; the first set status decides, and no
   * response after it is looked at.
   */
  lemma {:induction false} JoinOutcomeFirstSet(imageId: string, polls: seq<GenericResult>)
    ensures var k := UnsetPrefix(polls);
      JoinOutcome(imageId, polls) == (if k == |polls| then Err(StillBuilding) else Decide(imageId, polls[k]))
    ensures PollsSent(polls) == (if UnsetPrefix(polls) == |polls| then |polls| else UnsetPrefix(polls) + 1)
  {
    if |polls| > 0 && polls[0].status == Unspecified {
      JoinOutcomeFirstSet(imageId, polls[1..]);
      assert forall j :: 0 <= j < |polls| - 1 ==> polls[1..][j] == polls[j + 1];
    }
  }

  /** Success returns the id `ImageGetOrCreate` gave, never anything from the join response. */
  lemma {:induction false} JoinSucceedsWithImageId(imageId: string, polls: seq<GenericResult>)
    requires JoinOutcome(imageId, polls).Ok?
    ensures JoinOutcome(imageId, polls).value == imageId
    ensures UnsetPrefix(polls) < |polls| && polls[UnsetPrefix(polls)].status == Success
  {
    JoinOutcomeFirstSet(imageId, polls);
  }

  /**
   * `CustomImage._create_impl`: have the session create every base image,
   * build the definition, ask for the image, then poll `ImageJoin` until a
   * status is set. `created` lists the images handed to `create_object`.
   */
  method CreateImpl(img: Image, sessionId: string, createObject: Image -> string,
                    getOrCreate: GetOrCreateRequest -> string, polls: seq<GenericResult>)
    returns (created: seq<Image>, request: Option<GetOrCreateRequest>, joins: seq<JoinRequest>,
             r: Result<string, ImageError>)
    requires img.Custom?
    ensures |created| == |img.baseImages|
    ensures forall i :: 0 <= i < |created| ==> created[i] == img.baseImages[i].1
    ensures var d := Definition(img, createObject);
      (d.Err? ==> request.None? && joins == [] && r == Err(BadCommand(d.error)))
      && (d.Ok? ==> (request == Some(GetOrCreateRequest(sessionId, d.value))
          && |joins| == PollsSent(polls)
          && (forall i :: 0 <= i < |joins| ==> joins[i] == JoinRequest(getOrCreate(request.value), sessionId))
          && r == JoinOutcome(getOrCreate(request.value), polls)))
  {
    // The base images are created first, whether or not the commands convert.
    created := seq(|img.baseImages|, i requires 0 <= i < |img.baseImages| => img.baseImages[i].1);
    var definition := Definition(img, createObject);
    if definition.Err? {
      return created, None, [], Err(BadCommand(definition.error));
    }
    var req := GetOrCreateRequest(sessionId, definition.value);
    request := Some(req);
    var imageId := getOrCreate(req);
    joins := [];
    var i := 0;
    while i < |polls|
      invariant 0 <= i <= |polls|
      invariant JoinOutcome(imageId, polls) == JoinOutcome(imageId, polls[i..])
      invariant PollsSent(polls) == i + PollsSent(polls[i..])
      invariant |joins| == i && forall j :: 0 <= j < i ==> joins[j] == JoinRequest(imageId, sessionId)
    {
      joins := joins + [JoinRequest(imageId, sessionId)];
      var result := polls[i];
      assert polls[i..][1..] == polls[i + 1..];
      if result.status == Unspecified {
        i := i + 1;
        continue;
      } else if result.status == Failure {
        return created, request, joins, Err(RemoteError(result.exception));
      } else if result.status == Success {
        return created, request, joins, Ok(imageId);
      } else {
        return created, request, joins, Err(RemoteError("Unknown status " + IntToString(result.status.code) + "!"));
      }
    }
    r := Err(StillBuilding);
  }

  /** Every command converts exactly when the whole list does. */
  lemma CommandBytesAll(commands: seq<PyText>)
    ensures CommandBytes(commands).Ok? <==> forall i :: 0 <= i < |commands| ==> MakeBytes(commands[i]).Ok?
  {
    var r := CommandBytes(commands);
    if r.Err? {
      var k :| 0 <= k < |commands| && MakeBytes(commands[k]) == Err(r.error);
    }
  }

  /** `extend_image`'s recipe asks for the base image under the tag `base` and starts from it. */
  lemma ExtendImageDefinition(base: Image, extraCommands: seq<PyText>, createObject: Image -> string)
    ensures var d := Definition(ExtendImage(base, extraCommands), createObject);
      (d.Ok? <==> forall i :: 0 <= i < |extraCommands| ==> MakeBytes(extraCommands[i]).Ok?)
      && (d.Ok? ==> (d.value.baseImages == [BaseImagePb("base", createObject(base))]
                    && |d.value.dockerfileCommands| == 1 + |extraCommands|
                    && MakeBytes(Str("FROM base")) == Ok(d.value.dockerfileCommands[0])))
  {
    var img := ExtendImage(base, extraCommands);
    var cmds := img.dockerfileCommands;
    CommandBytesAll(cmds);
    forall i | 0 <= i < |extraCommands| ensures MakeBytes(cmds[i + 1]) == MakeBytes(extraCommands[i]) {
      assert cmds[i + 1] == cmds[1..][i];
    }
    var c := CommandBytes(cmds);
    if c.Ok? {
      assert MakeBytes(cmds[0]) == Ok(c.value[0]);
    }
  }
}
