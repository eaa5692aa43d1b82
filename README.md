# Polyester client core, modelled in Dafny

This project models the client-side core of the Polyester (later Modal)
Python client:

- **Factories** (`modal/_factory.py`): deferred constructors of remote
  objects. A user factory wraps a user procedure, binds at most one
  `(args, kwargs)` pair and, when loaded, hands the object it produced to the
  session and takes over the id the session assigns. A shared-object factory
  names a published object by `(label, namespace)`.
- **The session** (`polyester/session.py`): `create_or_get` joins an object
  to the session, `function` registers functions, `_get_logs` forwards a
  log stream up to its done entry, and `run` opens the session, joins every
  attribute and every function under its tag, runs the caller's block, then
  stops the session and drains the logs.
- **Functions** (`polyester/function.py`): where a function's code is
  mounted from (`_function_to_path`), how `map` and `__call__` pack inputs
  into buffer writes (`MapInvocation`), how the consumer reads results back,
  and `decorate_function`.
- **Images** (`polyester/image.py`): `_make_bytes`, `is_inside`, the Docker
  Hub tag resolution, the recipes built by `debian_slim` and `extend_image`,
  and `CustomImage._create_impl`, which sends the image definition and polls
  `ImageJoin` until a status is set.

The modules are `Wrappers` (Option and Result), `Strings` (decimal numbers,
`split` and `join`), `Api` (the messages of the remote API and the opaque
codec), `Factory`, `Sessions`, `Invocation` and `Images`.

The model treats the following as parameters:

- remote calls and their answers: the gRPC stubs, `session.create_object`
  and `session.use`;
- what reflection would report: `dir()` of the session, a function's module
  facts, and `__import__(...).__path__`;
- environment and configuration: `os.getenv`, `config[...]` and
  `sys.version_info`.

State the source changes in place is kept as state. `Session` is a class
whose methods update its fields, and `Obj` a class whose fields they update.
The session records every remote call it makes, in order, in an `events`
field, and every log line it prints in a `printed` field. The loops of the source are Dafny loops:

- `_get_logs`;
- the join loop of `run`;
- `generate_inputs`;
- the result consumer;
- the `ImageJoin` poll loop.

Each of these loops is proved against a function that specifies it.

Two details of `run` the model keeps as the code has them:

- `run` has no `try`/`finally` around its `yield`. When the caller's block
  raises, neither the stop request nor the final log drain is sent. The model
  has a `blockRaises` parameter for this case.
- `run` collects the objects to join before `SessionCreate` is sent, not
  after.

## Model

| member | source | states |
|---|---|---|
| Factory.MakeUserFactory | modal/_factory.py:24-33 | the factory keeps its class, procedure and bound pair, and its tag is the tag computed from the procedure and that pair |
| Factory.Bind | modal/_factory.py:54-57 | binding succeeds exactly when no pair is bound yet (otherwise `AlreadyBound`), and gives a factory around the same procedure with the new pair and the tag for it |
| Factory.BindIsSingleShot | modal/_factory.py:54-57 | a factory produced by binding refuses a second binding, while the unbound original accepts any pair |
| Factory.Load | modal/_factory.py:35-52 | inside a container session it fails with no effect; otherwise it first calls the procedure with the bound pair (or with no arguments); it succeeds exactly when the result is an instance of the class, in which case the object is created and its id returned; on a wrong type the procedure has been called once and nothing is created |
| Factory.LoadBoundUsesArgs | modal/_factory.py:39-52 | loading a factory bound to `a` calls the procedure with exactly `a` and returns the id assigned to the object that call produced, or a `TypeError` when its type is wrong |
| Factory.MakeSharedFactory | modal/_factory.py:67-71 | the factory keeps its label and namespace, and its tag is `SHARE(label, namespace)` |
| Factory.SharedLoad | modal/_factory.py:73-75 | loading a shared factory yields the id of the object the session looks up under the factory's `(label, namespace)` |
| Factory.ShareTagInjective | modal/_factory.py:70 | for labels without a comma, equal tags mean equal `(label, namespace)` pairs |
| Factory.SameShareTagSameId | modal/_factory.py:70-75 | two shared factories with the same tag (comma-free labels) load the same object id |
| Factory.ShareTagAmbiguous | modal/_factory.py:70 | with a label holding `", "`, two different pairs have one tag |
| Sessions.Session.CreateOrGet | polyester/session.py:21-34 | the object (or, with `return_copy`, a fresh copy with the same args, the original untouched) is bound to this session, tag and client and gets the id the service returns; exactly one create-or-get request is recorded |
| Sessions.Session.Function | polyester/session.py:36-39 | a fresh function object for `raw_f` and the image is appended after the functions already registered |
| Sessions.Session.GetLogsOnce | polyester/session.py:41-48 | one logs request is sent, and exactly the entries before the first done entry are printed, in order |
| Sessions.ForwardedIsPrefix | polyester/session.py:43-48 | what is forwarded has the length of the prefix before the first done entry, and each element is that entry's data and fd |
| Sessions.NothingAfterDone | polyester/session.py:44-46 | entries after a done entry are never forwarded |
| Sessions.Update | polyester/session.py:63 | updating `d` with `pairs` gives a valid dict (keys distinct, order and entries agree) |
| Sessions.UpdateKeepsOrder | polyester/session.py:63 | updating `d` with `pairs` keeps the keys of `d` in their places at the front |
| Sessions.UpdateAssigns | polyester/session.py:63 | after updating `d` with `pairs` with distinct keys, each pair's key holds that pair's value |
| Sessions.UpdateKeepsOthers | polyester/session.py:63 | a key of `d` that no pair names keeps its value |
| Sessions.UpdateFrom | polyester/session.py:63 | every entry after updating `d` with `pairs` comes from `d` or from one of the pairs |
| Sessions.FunTagInjective | polyester/session.py:63 | different function indices give different `fun_<i>` tags |
| Sessions.FunctionPairs | polyester/session.py:63 | the i-th pair of the function dict is `(fun_<i>, functions[i])` |
| Sessions.RunObjectsTags | polyester/session.py:57-63 | the i-th function is joined under `fun_<i>` even when an attribute has that name; every other attribute keeps its object and its place at the front; nothing else is joined |
| Sessions.Items | polyester/session.py:73 | the items of a dict are its keys in insertion order, each paired with its value |
| Sessions.CreateEvents | polyester/session.py:73-74 | one create-or-get request per item, in order, carrying the session id, the item's tag and its object's args |
| Sessions.EachTagOnce | polyester/session.py:73-74 | in the requests for a dict's items, every key is the tag of exactly one request, and the i-th request is for the i-th key and its object |
| Sessions.Session.Start | polyester/session.py:52-69 | the client is the given one or else the current one; `SessionCreate` is sent with its id and the session id is the service's answer |
| Sessions.Session.JoinAll | polyester/session.py:73-74 | the requests of the loop are recorded in item order, and afterwards every object is joined under the tag of its last occurrence in the items |
| Sessions.Session.Stop | polyester/session.py:81-88 | `SessionStop` and then one draining logs request are sent; the drain's entries are printed up to the done entry |
| Sessions.Session.Run | polyester/session.py:50-88 | the client is set; `SessionCreate`, then one create-or-get per object of the attribute-and-function dict in its order, then (unless the block raised) stop and drain are sent; every object ends joined; the registered functions are unchanged |
| Invocation.Basename | polyester/function.py:38 | the base name is the suffix of the path after its last slash: it holds no slash, and it is the whole path or is preceded by a slash |
| Invocation.Dirname | polyester/function.py:39 | the directory name is empty when the path has no slash; otherwise it is the part of the path up to and including its last slash, with trailing slashes stripped unless that part is all slashes (then it is kept whole) |
| Invocation.Splitext | polyester/function.py:38 | the two parts concatenate to the path; the extension is non-empty exactly when the last dot follows the last slash and some character between them is not a dot, and then it starts at that last dot with no dot or slash after it |
| Invocation.MountAcceptsOnlyPy | polyester/function.py:47 | every file the mount condition accepts ends in `.py` |
| Invocation.ScriptFile | polyester/function.py:38-47 | `<dir>/<stem>.py` passes the mount condition, and its module name is `stem` |
| Invocation.FunctionToPath | polyester/function.py:22-51 | a packaged module with one package path is mounted recursively at `/root/<package>` under its spec name, and with any other number of paths fails the assertion; a script module is mounted non-recursively from its directory at `/root` under its file's stem, and without `__file__` fails; the function name is always `f.__name__` |
| Invocation.ScriptFunctionPath | polyester/function.py:35-47 | a function in `<dir>/<stem>.py` is looked up as module `stem` in a non-recursive mount at `/root` that accepts the script |
| Invocation.Create | polyester/function.py:76-82 | the invocation keeps the function id, inputs and kwargs, and uses the buffer ids the `FunctionMap` answer gives |
| Invocation.InputRequestCarries | polyester/function.py:86-100 | each request goes to the invocation's function and input buffer, and its payload decodes to the input, the shared kwargs and the output buffer id |
| Invocation.GenerateInputs | polyester/function.py:85-100 | one request per input, in input order, each the request for that input |
| Invocation.Decode | polyester/function.py:109-118 | a result whose status is not SUCCESS stops the stream with `Remote exception: <exception>\n<traceback>`; a SUCCESS result yields its unpickled payload |
| Invocation.FoldOutputsSpec | polyester/function.py:108-118 | the consumer yields the decoded value of every output before the first one that does not decode, in order, then stops with that output's error; it is exhausted exactly when every output decodes |
| Invocation.NothingAfterFailure | polyester/function.py:116-117 | outputs after the first failing one never reach the caller |
| Invocation.Consume | polyester/function.py:108-118 | the loop yields exactly the values and the ending the fold describes |
| Invocation.MapArgs | polyester/function.py:163 | `map` sends each input as a one-element tuple, in order |
| Invocation.Map | polyester/function.py:161-164 | `map` makes an invocation of the function whose i-th input is the one-element tuple of the i-th input, with the given kwargs and the `FunctionMap` buffer ids |
| Invocation.MapRequests | polyester/function.py:161-164 | the i-th request of a map goes to the function and decodes to the i-th input wrapped in a one-element tuple |
| Invocation.CallRequest | polyester/function.py:166-168 | the single request of a call goes to the function and carries the whole argument tuple, the kwargs and the output buffer id |
| Invocation.Call | polyester/function.py:166-170 | a call makes an invocation of the function whose one input is the whole argument tuple, with the `FunctionMap` buffer ids; it returns the first value the consumer yields, fails with the stream's error when it yields none, and returns `None` when the stream ends with no value |
| Invocation.DecorateFunction | polyester/function.py:179-183 | decoration succeeds exactly for callables, wrapping the callable with the image, and otherwise fails naming the value |
| Images.MakeBytes | polyester/image.py:16-18 | `bytes` pass through unchanged; a value of any other type than `str` or `bytes` is refused; a `str` converts exactly when it is ASCII |
| Images.MakeBytesOfStr | polyester/image.py:18 | an ASCII `str` becomes one byte per character, its code point; otherwise the error names the first non-ASCII character |
| Images.AsciiRoundTrip | polyester/image.py:18 | decoding the bytes of an ASCII `str` gives the `str` back |
| Images.IsInside | polyester/image.py:25-30 | true exactly when the image has an id and the environment's image id equals it |
| Images.DockerhubPythonVersion | polyester/image.py:112-129 | an unlisted major.minor fails with that major.minor |
| Images.KeepsMajorMinor | polyester/image.py:127-128 | for `major.minor` followed by nothing or by `.` and more, the result is `major.minor.<latest micro>` when the table lists `major.minor`, and an error naming it otherwise |
| Images.RunningVersionSplits | polyester/image.py:116-117 | the running interpreter's version is written as just `major.minor` |
| Images.DockerhubIdempotent | polyester/image.py:112-129 | a resolved tag resolves to itself |
| Images.PatchReleaseResolves | polyester/image.py:120-128 | `3.10.4` resolves to `3.10.1` |
| Images.UnlistedVersionFails | polyester/image.py:120-128 | `2.7.18` fails as major.minor `2.7` |
| Images.WheelLineNamesPackages | polyester/image.py:150 | the packages can be read back, in order, from the `pip wheel` line (for one or more packages without spaces) |
| Images.SlimRecipeShape | polyester/image.py:141-160 | the recipe starts with `FROM base as target`, then one `RUN` line per extra command in order, then the six-line builder stage exactly when packages are given; the base images are `base`, followed by `builder` exactly when packages are given, and nothing else; no context files, local Python or version are set |
| Images.DebianSlim | polyester/image.py:132-160 | an unlisted version fails; with neither extra commands nor packages the base image itself is returned; otherwise the recipe for the resolved version |
| Images.ExtendImage | polyester/image.py:163-164 | the recipe uses the given image as `base` and nothing else, its commands are `FROM base` followed by the extra commands, and it sets no context files, local Python or version |
| Images.ExtendImageDefinition | polyester/image.py:57-67 | an extended image's definition exists exactly when every extra command converts to bytes; it asks for the given image under the tag `base` and starts with the bytes of `FROM base` |
| Images.BaseImagePbs | polyester/image.py:57-61 | each base image's id is paired with its docker tag, in dict order |
| Images.ContextFilePbs | polyester/image.py:63-65 | each context file keeps its name and its data, in order |
| Images.CommandBytes | polyester/image.py:67 | when every command converts, the i-th byte string is the i-th command's bytes; otherwise the error is that of the first command that does not convert |
| Images.CommandBytesAll | polyester/image.py:67 | the command list converts exactly when each command does |
| Images.Definition | polyester/image.py:57-74 | the definition exists exactly when every command converts, and otherwise the error is the first failing command's; it carries the base images paired with the ids `create_object` gave them, the converted commands, the context files, the local Python and the version |
| Images.Decide | polyester/image.py:93-98 | a set status succeeds exactly when it is SUCCESS, and then returns the image id; FAILURE raises the response's exception text; every failure is a `RemoteError` |
| Images.JoinOutcomeFirstSet | polyester/image.py:84-98 | responses with an unset status are skipped; the first set status decides (FAILURE raises the exception text, SUCCESS returns, anything else raises `Unknown status`), and no request is sent after it |
| Images.JoinSucceedsWithImageId | polyester/image.py:95-100 | success returns the id `ImageGetOrCreate` gave, and happens only when the first set status is SUCCESS |
| Images.UnknownStatusMessages | polyester/image.py:97-98 | different unknown status codes give different error messages |
| Images.CreateImpl | polyester/image.py:55-100 | every base image is first handed to `create_object`, in dict order, whatever follows; then a command that cannot be converted fails before the `ImageGetOrCreate` request; otherwise the definition is sent once with the session id, `ImageJoin` is polled with the returned image id and the session id until a status is set, and the result is the poll outcome |

## Left out

- Concurrency and timing are not modelled: the pump task and the `wait_for`
  timeout of `__aiter__`, `asyncio.gather`, the background log task of `run`,
  request timeouts and `retry`. Gathered results are taken in argument order.
- The gRPC transport, `buffered_read_all` and `buffered_write_all` are not
  modelled. Their answers are function parameters, and output items are a
  finite sequence.
- cloudpickle and protobuf `Any` are an opaque codec: serialising wraps the
  value and deserialising unwraps it.
- `print_logs` and logging are not modelled; printed lines are recorded as
  `(data, fd)` pairs.
- Reflection is not modelled. `dir(self)` becomes the `attrs` dict given to
  `run`; its order stands for `dir`'s sorted order, and `run` does not
  require it to be sorted. The `inspect`/`__import__` facts are a
  `FunctionFacts` value.
- `Function._join`, `Function.get_function` and `_path_to_function` are not
  part of this model; they import modules and call the service.
  `create_package_mounts` and the mount upload are also not part of it.
- `Object._create_or_get`, `session.create_object`, `session.use`,
  `Image.use`, `FunctionInfo.get_tag` and `make_factory` are not part of this
  model; they appear only as function parameters or constructors.
- `image_factory` wraps `debian_slim` and `local_image`; that wrapping is not
  modelled. `DebianSlim` models the wrapped body, and `local_image` only
  builds a `CustomImage`.
- Images.CreateImpl: the source polls forever while the status is unset; the
  model polls over a finite sequence of responses and ends with
  `StillBuilding` when it runs out.
- Images.DockerhubPythonVersion: its own contract states only the error case;
  the successful results are stated by `KeepsMajorMinor`,
  `DockerhubIdempotent` and `PatchReleaseResolves`.
- Invocation.Map: `window` is unused by the source and is not a parameter.
- Sessions.Session.Run: the remote `create_or_get` always answers, so the
  model has no path where `obj._create_or_get()` raises. In the source such
  a failure leaves that object with its session, tag and client set but no
  id, ends `run`'s join loop, and sends neither `SessionStop` nor the final
  log drain. The model's `Run` therefore promises every object joined and
  the full event list unconditionally.
- Sessions.Session.CreateOrGet: the service's answer is a function of the
  session id, the tag and the args, so two untagged creates with equal args
  get the same id in the model; the service may give them different ids.
- Sessions.Session.Function: `image.function(raw_f)` is modelled as a new
  function object carrying `raw_f` and the image name. Its default
  `base_image` is not modelled.
- The wire numbers of SUCCESS and FAILURE are taken to be 1 and 2 (0 is
  the unset status); the protocol definition file is not part of this model.
- The tag-based deduplication of concurrent creates is not modelled; the
  source's `create_or_get` has none.
