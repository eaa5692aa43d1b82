/**
 * Functions and their invocations (polyester/function.py): where a
 * function's code is found and mounted, how a map over inputs is packed
 * into buffer writes, and how the stream of results is read back.
 * The transport (the buffers and their reads and writes), the pump task and
 * the codec are outside: the service's answers and the output stream are
 * parameters, and the codec is the free one of module Api.
 */
module Invocation {
  import opened Wrappers
  import opened Api

  // ---------------------------------------------------------------------
  // POSIX path helpers (the parts of `os.path` the mount decision uses)

  /** Index of the last `c` in `s`, or -1 (Python's `str.rfind`). */
  function LastIndexOf(s: string, c: char): (i: int)
    ensures -1 <= i < |s|
    ensures i >= 0 ==> s[i] == c
    ensures forall j :: i < j < |s| ==> s[j] != c
  {
    if s == [] then -1
    else if s[|s| - 1] == c then |s| - 1
    else LastIndexOf(s[..|s| - 1], c)
  }

  /** `s.rstrip(c)`. */
  function RStrip(s: string, c: char): (r: string)
    ensures |r| <= |s| && r == s[..|r|]
    ensures r == [] || r[|r| - 1] != c
    ensures forall j :: |r| <= j < |s| ==> s[j] == c
  {
    if s != [] && s[|s| - 1] == c then RStrip(s[..|s| - 1], c) else s
  }

  predicate AllSlashes(s: string) {
    forall j :: 0 <= j < |s| ==> s[j] == '/'
  }

  /** `os.path.basename`: what follows the last slash. */
  function Basename(p: string): (b: string)
    ensures |b| <= |p| && b == p[|p| - |b|..]
    ensures forall j :: 0 <= j < |b| ==> b[j] != '/'
    ensures |b| == |p| || p[|p| - |b| - 1] == '/'
  {
    p[LastIndexOf(p, '/') + 1..]
  }

  /**
   * `os.path.dirname`: what precedes the last slash, with trailing slashes
   * removed unless it is made of slashes only.
   */
  function Dirname(p: string): (d: string)
    ensures |d| <= |p| && d == p[..|d|]
    ensures LastIndexOf(p, '/') < 0 ==> d == []
    ensures LastIndexOf(p, '/') >= 0 ==>
      |d| >= 1 && (AllSlashes(d) || d[|d| - 1] != '/')
      && forall j :: |d| <= j <= LastIndexOf(p, '/') ==> p[j] == '/'
    ensures LastIndexOf(p, '/') >= 0 ==> |d| <= LastIndexOf(p, '/') + 1
    ensures LastIndexOf(p, '/') >= 0 && AllSlashes(p[..LastIndexOf(p, '/') + 1]) ==>
      d == p[..LastIndexOf(p, '/') + 1]
  {
    var head := p[..LastIndexOf(p, '/') + 1];
    if head != [] && !AllSlashes(head) then
      RStrip(head, '/')
    else head
  }

  /** Some character of `p[lo..hi]` is not a dot. */
  predicate HasNonDot(p: string, lo: int, hi: int)
    requires 0 <= lo && hi <= |p|
  {
    exists k :: lo <= k < hi && p[k] != '.'
  }

  /**
   * `os.path.splitext`: the extension starts at the last dot of the last
   * path component, unless only dots precede that dot in the component.
   */
  function Splitext(p: string): (r: (string, string))
    ensures r.0 + r.1 == p
    ensures r.1 == [] || (r.1[0] == '.' && forall j :: 0 < j < |r.1| ==> r.1[j] != '.' && r.1[j] != '/')
    ensures r.1 != [] <==>
      LastIndexOf(p, '.') > LastIndexOf(p, '/') && HasNonDot(p, LastIndexOf(p, '/') + 1, LastIndexOf(p, '.'))
    ensures r.1 != [] ==> |r.0| == LastIndexOf(p, '.')
  {
    var sepIndex := LastIndexOf(p, '/');
    var dotIndex := LastIndexOf(p, '.');
    if dotIndex > sepIndex && HasNonDot(p, sepIndex + 1, dotIndex) then
      assert p[..dotIndex] + p[dotIndex..] == p;
      (p[..dotIndex], p[dotIndex..])
    else (p, [])
  }

  lemma {:induction false} LastIndexOfAfter(p: string, c: char, rest: string)
    requires forall j :: 0 <= j < |rest| ==> rest[j] != c
    ensures LastIndexOf(p + [c] + rest, c) == |p|
  {
    var s := p + [c] + rest;
    if rest == [] {
      assert s[|s| - 1] == c;
    } else {
      var shorter := rest[..|rest| - 1];
      assert s[|s| - 1] == rest[|rest| - 1];
      assert s[..|s| - 1] == p + [c] + shorter;
      LastIndexOfAfter(p, c, shorter);
    }
  }

  /** The condition of the code mount: only Python source files are uploaded. */
  predicate MountAccepts(filename: string) {
    Splitext(filename).1 == ".py"
  }

  /** An accepted file name ends in `.py`. */
  lemma MountAcceptsOnlyPy(filename: string)
    requires MountAccepts(filename)
    ensures |filename| >= 3 && filename[|filename| - 3..] == ".py"
  {
    var r := Splitext(filename);
    assert filename == r.0 + ".py";
  }

  /**
   * A file `<dir>/<stem>.py` is accepted, and is the module `stem` when run
   * as a script, whenever the stem is a file name with a character other
   * than a dot.
   */
  lemma {:induction false} ScriptFile(dir: string, stem: string)
    requires forall j :: 0 <= j < |stem| ==> stem[j] != '/'
    requires exists k :: 0 <= k < |stem| && stem[k] != '.'
    ensures MountAccepts(dir + "/" + stem + ".py")
    ensures Splitext(Basename(dir + "/" + stem + ".py")).0 == stem
  {
    var k :| 0 <= k < |stem| && stem[k] != '.';
    var q := dir + "/" + stem;
    assert q[|q| - |stem|..] == stem;
    assert q[|q| - |stem| - 1] == '/';
    SplitextOfPy(q, stem, k);
    BasenameAfterSlash(dir, stem + ".py");
    assert dir + "/" + (stem + ".py") == q + ".py";
    SplitextOfPy(stem, stem, k);
  }

  /** The base name of `<dir>/<file>` is `file`. */
  lemma BasenameAfterSlash(dir: string, file: string)
    requires forall j :: 0 <= j < |file| ==> file[j] != '/'
    ensures Basename(dir + "/" + file) == file
  {
    var p := dir + "/" + file;
    assert p == dir + ['/'] + file;
    LastIndexOfAfter(dir, '/', file);
    assert p[|dir| + 1..] == file;
  }

  /** The last `c` is just before `s[start..]` when that part holds none. */
  lemma LastIndexOfBefore(s: string, c: char, start: nat)
    requires start <= |s|
    requires forall j :: start <= j < |s| ==> s[j] != c
    requires start == 0 || s[start - 1] == c
    ensures LastIndexOf(s, c) == start - 1
  {
  }

  /** `splitext(q)` where `q` ends in `/<stem>.py` (or is `<stem>.py`). */
  lemma SplitextOfPy(q: string, stem: string, k: nat)
    requires forall j :: 0 <= j < |stem| ==> stem[j] != '/'
    requires k < |stem| && stem[k] != '.'
    requires |q| >= |stem| && q[|q| - |stem|..] == stem
    requires |q| == |stem| || q[|q| - |stem| - 1] == '/'
    ensures Splitext(q + ".py") == (q, ".py")
  {
    var p := q + ".py";
    var base := |q| - |stem|;
    assert p == q + ['.'] + "py";
    LastIndexOfAfter(q, '.', "py");
    forall j | base <= j < |p| ensures p[j] != '/' {
      if j < |q| {
        assert p[j] == stem[j - base];
      }
    }
    LastIndexOfBefore(p, '/', base);
    assert p[base + k] == stem[k];
    assert HasNonDot(p, base, |q|);
  }

  // ---------------------------------------------------------------------
  // Where a function's code comes from

  /** What reflection tells about a function and its module. */
  datatype FunctionFacts = FunctionFacts(
    name: string,                  // f.__name__
    package: Option<string>,       // module.__package__
    specName: string,              // module.__spec__.name
    file: Option<string>,          // module.__file__
    packagePath: seq<string>)      // __import__(module.__package__).__path__

  /** The code mount of a function: local directory, remote directory, recursion. */
  datatype Mount = Mount(localDir: string, remoteDir: string, recursive: bool)

  datatype FunctionPath = FunctionPath(mount: Mount, moduleName: string, functionName: string)

  datatype PathError =
    | PackagePathNotSingle  // the `len(package_path) == 1` assertion fails
    | NoModuleFile          // a script module without `__file__`

  /** Python truthiness of `module.__package__`. */
  predicate IsPackaged(f: FunctionFacts) {
    f.package.Some? && f.package.value != ""
  }

  /** `_function_to_path`. */
  function FunctionToPath(f: FunctionFacts): (r: Result<FunctionPath, PathError>)
    ensures r.Ok? ==> r.value.functionName == f.name
    ensures IsPackaged(f) ==>
      if |f.packagePath| == 1 then
        r == Ok(FunctionPath(Mount(f.packagePath[0], "/root/" + f.package.value, true), f.specName, f.name))
      else r == Err(PackagePathNotSingle)
    ensures !IsPackaged(f) ==>
      if f.file.Some? then
        && r.Ok?
        && r.value.mount == Mount(Dirname(f.file.value), "/root", false)
        && r.value.moduleName == Splitext(Basename(f.file.value)).0
      else r == Err(NoModuleFile)
  {
    if IsPackaged(f) then
      if |f.packagePath| != 1 then Err(PackagePathNotSingle)
      else
        Ok(FunctionPath(Mount(f.packagePath[0], "/root/" + f.package.value, true), f.specName, f.name))
    else if f.file.None? then Err(NoModuleFile)
    else
      var file := f.file.value;
      Ok(FunctionPath(Mount(Dirname(file), "/root", false), Splitext(Basename(file)).0, f.name))
  }

  /**
   * A function defined in a script `<dir>/<stem>.py` is looked up as module
   * `stem`, uploads the script's directory without recursion to `/root`,
   * and the mount accepts the script itself.
   */
  lemma ScriptFunctionPath(f: FunctionFacts, dir: string, stem: string)
    requires !IsPackaged(f) && f.file == Some(dir + "/" + stem + ".py")
    requires forall j :: 0 <= j < |stem| ==> stem[j] != '/'
    requires exists k :: 0 <= k < |stem| && stem[k] != '.'
    ensures FunctionToPath(f).Ok?
    ensures FunctionToPath(f).value.moduleName == stem
    ensures FunctionToPath(f).value.mount.remoteDir == "/root" && !FunctionToPath(f).value.mount.recursive
    ensures MountAccepts(f.file.value)
  {
    ScriptFile(dir, stem);
  }

  // ---------------------------------------------------------------------
  // Map invocations

  /** What `FunctionMap` answers: the input and output buffer ids. */
  datatype MapResponse = MapResponse(inputBufferId: string, outputBufferId: string)

  datatype MapInvocation = MapInvocation(
    functionId: string,
    inputs: seq<PyValue>,
    kwargs: PyValue,
    inputBufferId: string,
    outputBufferId: string)

  /** `MapInvocation.create`, with `functionMap` the service's answer to a `FunctionMapRequest`. */
  function Create(functionId: string, inputs: seq<PyValue>, kwargs: PyValue,
                  functionMap: string -> MapResponse): (inv: MapInvocation)
    ensures inv.functionId == functionId && inv.inputs == inputs && inv.kwargs == kwargs
    ensures inv.inputBufferId == functionMap(functionId).inputBufferId
    ensures inv.outputBufferId == functionMap(functionId).outputBufferId
  {
    var response := functionMap(functionId);
    MapInvocation(functionId, inputs, kwargs, response.inputBufferId, response.outputBufferId)
  }

  datatype BufferWriteRequest = BufferWriteRequest(item: BufferItem, bufferId: string)

  datatype FunctionCallRequest = FunctionCallRequest(functionId: string, bufferReq: BufferWriteRequest)

  /** The request `generate_inputs` yields for one input. */
  function InputRequest(inv: MapInvocation, arg: PyValue): FunctionCallRequest {
    var input := FunctionInput(Serialize(arg), Serialize(inv.kwargs), inv.outputBufferId);
    FunctionCallRequest(inv.functionId, BufferWriteRequest(BufferItem(PackedInput(input)), inv.inputBufferId))
  }

  /** What a worker reads back from a buffer item: the call's args, kwargs and where to answer. */
  function DecodeInput(item: BufferItem): Option<(PyValue, PyValue, string)> {
    match item.data
    case PackedResult(_) => None
    case PackedInput(input) =>
      match (Deserialize(input.args), Deserialize(input.kwargs))
      case (Ok(a), Ok(k)) => Some((a, k, input.outputBufferId))
      case _ => None
  }

  /**
   * Every request is addressed to the invocation's function and input
   * buffer, and its payload decodes to the input, the shared kwargs and the
   * output buffer id.
   */
  lemma InputRequestCarries(inv: MapInvocation, arg: PyValue)
    ensures InputRequest(inv, arg).functionId == inv.functionId
    ensures InputRequest(inv, arg).bufferReq.bufferId == inv.inputBufferId
    ensures DecodeInput(InputRequest(inv, arg).bufferReq.item) == Some((arg, inv.kwargs, inv.outputBufferId))
  {
    DeserializeSerialize(arg);
    DeserializeSerialize(inv.kwargs);
  }

  /** `generate_inputs`: one request per input, in input order. */
  method GenerateInputs(inv: MapInvocation) returns (reqs: seq<FunctionCallRequest>)
    ensures |reqs| == |inv.inputs|
    ensures forall i :: 0 <= i < |reqs| ==> reqs[i] == InputRequest(inv, inv.inputs[i])
  {
    reqs := [];
    var i := 0;
    while i < |inv.inputs|
      invariant 0 <= i <= |inv.inputs|
      invariant |reqs| == i
      invariant forall j :: 0 <= j < i ==> reqs[j] == InputRequest(inv, inv.inputs[j])
    {
      var arg := inv.inputs[i];
      var input := FunctionInput(Serialize(arg), Serialize(inv.kwargs), inv.outputBufferId);
      var bufferReq := BufferWriteRequest(BufferItem(PackedInput(input)), inv.inputBufferId);
      reqs := reqs + [FunctionCallRequest(inv.functionId, bufferReq)];
      i := i + 1;
    }
  }

  // ---------------------------------------------------------------------
  // Reading the results back

  /** How the stream of results ends for the consumer. */
  datatype StreamEnd =
    | Exhausted                        // the output buffer has no more items
    | RemoteException(message: string) // a result whose status is not SUCCESS
    | DecodeFailure                    // a SUCCESS result whose payload cannot be unpickled

  datatype Stream = Stream(values: seq<PyValue>, end: StreamEnd)

  /** The message raised for a result that is not a success. */
  function RemoteMessage(r: GenericResult): string {
    "Remote exception: " + r.exception + "\n" + r.traceback
  }

  /** What one output item turns into: the value yielded, or how the stream stops. */
  function Decode(item: BufferItem): (r: Result<PyValue, StreamEnd>)
    ensures UnpackResult(item.data).status != Success ==> r == Err(RemoteException(RemoteMessage(UnpackResult(item.data))))
    ensures UnpackResult(item.data).status == Success ==>
      match Deserialize(UnpackResult(item.data).data)
      case Ok(v) => r == Ok(v)
      case Err(_) => r == Err(DecodeFailure)
  {
    var result := UnpackResult(item.data);
    if result.status != Success then Err(RemoteException(RemoteMessage(result)))
    else
      match Deserialize(result.data)
      case Ok(v) => Ok(v)
      case Err(_) => Err(DecodeFailure)
  }

  /** The stream the consumer yields for a sequence of output items. */
  function FoldOutputs(outs: seq<BufferItem>): Stream {
    if outs == [] then Stream([], Exhausted)
    else
      match Decode(outs[0])
      case Err(e) => Stream([], e)
      case Ok(v) =>
        var rest := FoldOutputs(outs[1..]);
        Stream([v] + rest.values, rest.end)
  }

  /**
   * The consumer yields the decoded value of every output before the first
   * one that does not decode, in arrival order, and then stops with that
   * one's error; it is exhausted exactly when every output decodes.
   */
  lemma {:induction false} FoldOutputsSpec(outs: seq<BufferItem>)
    ensures |FoldOutputs(outs).values| <= |outs|
    ensures forall j :: 0 <= j < |FoldOutputs(outs).values| ==> Decode(outs[j]) == Ok(FoldOutputs(outs).values[j])
    ensures FoldOutputs(outs).end == Exhausted <==> |FoldOutputs(outs).values| == |outs|
    ensures |FoldOutputs(outs).values| < |outs| ==>
      Decode(outs[|FoldOutputs(outs).values|]) == Err(FoldOutputs(outs).end)
  {
    if outs != [] && Decode(outs[0]).Ok? {
      FoldOutputsSpec(outs[1..]);
      var rest := FoldOutputs(outs[1..]);
      var s := FoldOutputs(outs);
      assert s.values == [Decode(outs[0]).value] + rest.values;
      forall j | 0 <= j < |s.values| ensures Decode(outs[j]) == Ok(s.values[j]) {
        if j > 0 {
          assert s.values[j] == rest.values[j - 1];
          assert outs[1..][j - 1] == outs[j];
        }
      }
      if |s.values| < |outs| {
        assert outs[1..][|rest.values|] == outs[|s.values|];
      }
    }
  }

  /** Nothing after the first output that does not decode reaches the caller. */
  lemma {:induction false} NothingAfterFailure(p: seq<BufferItem>, bad: BufferItem, rest: seq<BufferItem>)
    requires Decode(bad).Err?
    ensures FoldOutputs(p + [bad] + rest) == FoldOutputs(p + [bad])
  {
    if p == [] {
      assert (p + [bad] + rest)[0] == bad;
      assert (p + [bad])[0] == bad;
    } else {
      assert (p + [bad] + rest)[0] == p[0] && (p + [bad])[0] == p[0];
      assert (p + [bad] + rest)[1..] == p[1..] + [bad] + rest;
      assert (p + [bad])[1..] == p[1..] + [bad];
      NothingAfterFailure(p[1..], bad, rest);
    }
  }

  lemma FoldOutputsStep(outs: seq<BufferItem>, i: nat, v: PyValue)
    requires i < |outs| && Decode(outs[i]) == Ok(v)
    ensures FoldOutputs(outs[i..]) == Stream([v] + FoldOutputs(outs[i + 1..]).values, FoldOutputs(outs[i + 1..]).end)
  {
    assert outs[i..][0] == outs[i];
    assert outs[i..][1..] == outs[i + 1..];
  }

  /**
   * The consumer loop of `__aiter__`: yields each successful result's
   * payload, raises on the first result that is not a success.
   */
  method Consume(outs: seq<BufferItem>) returns (values: seq<PyValue>, end: StreamEnd)
    ensures Stream(values, end) == FoldOutputs(outs)
  {
    values := [];
    var i := 0;
    while i < |outs|
      invariant 0 <= i <= |outs|
      invariant FoldOutputs(outs) == Stream(values + FoldOutputs(outs[i..]).values, FoldOutputs(outs[i..]).end)
    {
      var result := UnpackResult(outs[i].data);
      if result.status != Success {
        assert FoldOutputs(outs[i..]) == Stream([], RemoteException(RemoteMessage(result))) by {
          assert outs[i..][0] == outs[i];
        }
        end := RemoteException(RemoteMessage(result));
        return;
      }
      match Deserialize(result.data)
      case Err(_) =>
        assert FoldOutputs(outs[i..]) == Stream([], DecodeFailure) by {
          assert outs[i..][0] == outs[i];
        }
        end := DecodeFailure;
        return;
      case Ok(v) =>
        FoldOutputsStep(outs, i, v);
        values := values + [v];
        i := i + 1;
    }
    assert outs[i..] == [];
    end := Exhausted;
  }

  // ---------------------------------------------------------------------
  // Function.map, Function.__call__, decorate_function

  /** The arguments `map` sends: each input as a one-element tuple. */
  function MapArgs(inputs: seq<PyValue>): (args: seq<PyValue>)
    ensures |args| == |inputs|
    ensures forall i :: 0 <= i < |args| ==> args[i].Tuple? && args[i].items == [inputs[i]]
  {
    seq(|inputs|, i requires 0 <= i < |inputs| => Tuple([inputs[i]]))
  }

  /** `Function.map`: an invocation over the one-element tuples of the inputs. */
  function Map(objectId: string, inputs: seq<PyValue>, kwargs: PyValue,
               functionMap: string -> MapResponse): (inv: MapInvocation)
    ensures inv.functionId == objectId && inv.kwargs == kwargs
    ensures |inv.inputs| == |inputs|
    ensures forall i :: 0 <= i < |inputs| ==> inv.inputs[i] == Tuple([inputs[i]])
    ensures inv.inputBufferId == functionMap(objectId).inputBufferId
    ensures inv.outputBufferId == functionMap(objectId).outputBufferId
  {
    Create(objectId, MapArgs(inputs), kwargs, functionMap)
  }

  /**
   * The i-th request of a map carries the i-th input wrapped in a one-element
   * tuple, to the function's input buffer.
   */
  lemma MapRequests(objectId: string, inputs: seq<PyValue>, kwargs: PyValue,
                    functionMap: string -> MapResponse, i: nat)
    requires i < |inputs|
    ensures var inv := Map(objectId, inputs, kwargs, functionMap);
      && InputRequest(inv, inv.inputs[i]).functionId == objectId
      && DecodeInput(InputRequest(inv, inv.inputs[i]).bufferReq.item)
         == Some((Tuple([inputs[i]]), kwargs, functionMap(objectId).outputBufferId))
  {
    var inv := Map(objectId, inputs, kwargs, functionMap);
    InputRequestCarries(inv, inv.inputs[i]);
  }

  datatype CallError = CallFailed(end: StreamEnd)

  /**
   * `Function.__call__`: an invocation whose one input is the whole argument
   * tuple, and the first value the consumer yields for its outputs. The call
   * fails with the error that stops the stream when it yields no value, and
   * returns `None` when the stream ends cleanly with no value.
   */
  function Call(objectId: string, args: seq<PyValue>, kwargs: PyValue,
                functionMap: string -> MapResponse, outs: seq<BufferItem>)
    : (r: (MapInvocation, Result<Option<PyValue>, CallError>))
    ensures r.0.functionId == objectId && r.0.inputs == [Tuple(args)] && r.0.kwargs == kwargs
    ensures r.0.inputBufferId == functionMap(objectId).inputBufferId
    ensures r.0.outputBufferId == functionMap(objectId).outputBufferId
    ensures var s := FoldOutputs(outs);
      r.1 == if |s.values| > 0 then Ok(Some(s.values[0]))
             else if s.end == Exhausted then Ok(None)
             else Err(CallFailed(s.end))
  {
    var inv := Create(objectId, [Tuple(args)], kwargs, functionMap);
    if outs == [] then (inv, Ok(None))
    else
      match Decode(outs[0])
      case Ok(v) => (inv, Ok(Some(v)))
      case Err(e) => (inv, Err(CallFailed(e)))
  }

  /** The single request of a call carries the whole argument tuple. */
  lemma CallRequest(objectId: string, args: seq<PyValue>, kwargs: PyValue,
                    functionMap: string -> MapResponse, outs: seq<BufferItem>)
    ensures var inv := Call(objectId, args, kwargs, functionMap, outs).0;
      && InputRequest(inv, inv.inputs[0]).functionId == objectId
      && DecodeInput(InputRequest(inv, inv.inputs[0]).bufferReq.item)
         == Some((Tuple(args), kwargs, functionMap(objectId).outputBufferId))
  {
    var inv := Call(objectId, args, kwargs, functionMap, outs).0;
    InputRequestCarries(inv, inv.inputs[0]);
  }

  /** A `Function` object's arguments. */
  datatype Function = Function(rawF: PyValue, image: Option<string>)

  datatype DecorateError = NotAFunction(value: PyValue)

  /** `decorate_function`: wraps a callable, rejects anything else. */
  function DecorateFunction(rawF: PyValue, image: Option<string>): (r: Result<Function, DecorateError>)
    ensures r.Ok? <==> rawF.Callable?
    ensures r.Ok? ==> r.value == Function(rawF, image)
    ensures r.Err? ==> r.error == NotAFunction(rawF)
  {
    if rawF.Callable? then Ok(Function(rawF, image)) else Err(NotAFunction(rawF))
  }
}
