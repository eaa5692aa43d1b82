/**
 * Factories: deferred constructors of remote objects (modal/_factory.py).
 *
 * A user factory wraps a user procedure and, optionally, one bound
 * `(args, kwargs)` pair. Its `load` runs the procedure, checks the type of
 * what it produced and hands that object to the session, adopting the id
 * the session assigns ("stealing" it). A shared-object factory names a
 * published object by `(label, namespace)` and resolves by looking it up.
 */
module Factory {
  import opened Wrappers
  import Strings

  /** An argument value, opaque to the factory. */
  datatype Value = Value(repr: string)

  /** A bound `(args, kwargs)` pair. */
  datatype ArgsKwargs = ArgsKwargs(args: seq<Value>, kwargs: seq<(string, Value)>)

  /** The user procedure a factory wraps, known by its qualified name. */
  datatype UserFun = UserFun(qualname: string)

  /** What a call of the user procedure produced, with the classes it is an instance of. */
  datatype Produced = Produced(repr: string, classes: set<string>)

  /** `UserFactory` instance: its object class, its procedure, its bound arguments and its tag. */
  datatype UserFactory = UserFactory(cls: string, fun: UserFun, bound: Option<ArgsKwargs>, tag: string)

  datatype FactoryError =
    | AlreadyBound            // `assert self._args_and_kwargs is None` in `__call__`
    | InsideContainer         // `assert False` when a container session exists
    | WrongType(expected: string)  // the `TypeError` of `load`

  /**
   * What `load` depends on but does not define: whether a container session
   * exists, what calling the user procedure (and awaiting it) produces, and
   * the id `session.create_object` assigns to an object.
   */
  datatype LoadContext = LoadContext(
    containerSession: bool,
    call: (UserFun, ArgsKwargs) -> Produced,
    createObject: Produced -> string)

  /** The observable steps of one `load`, in order. */
  datatype Effect = Called(fun: UserFun, with: ArgsKwargs) | Created(obj: Produced)

  datatype LoadOutcome = LoadOutcome(result: Result<string, FactoryError>, effects: seq<Effect>)

  /** Calling with no arguments, `self._fun()`. */
  const NoArgs := ArgsKwargs([], [])

  /** `UserFactory.__init__`: the tag is computed once from the procedure and the bound pair. */
  function MakeUserFactory(cls: string, fun: UserFun, bound: Option<ArgsKwargs>,
                           getTag: (UserFun, Option<ArgsKwargs>) -> string): (f: UserFactory)
    ensures f.cls == cls && f.fun == fun && f.bound == bound
    ensures f.tag == getTag(fun, bound)
  {
    UserFactory(cls, fun, bound, getTag(fun, bound))
  }

  /** The arguments `load` calls the procedure with. */
  function CallArgs(f: UserFactory): ArgsKwargs {
    match f.bound
    case Some(a) => a
    case None => NoArgs
  }

  /**
   * `UserFactory.__call__`: binding arguments gives a new factory around the
   * same procedure; a factory that already has arguments refuses.
   */
  function Bind(f: UserFactory, a: ArgsKwargs,
                getTag: (UserFun, Option<ArgsKwargs>) -> string): (r: Result<UserFactory, FactoryError>)
    ensures r.Ok? <==> f.bound.None?
    ensures r.Err? ==> r.error == AlreadyBound
    ensures r.Ok? ==> r.value.fun == f.fun && r.value.cls == f.cls && r.value.bound == Some(a)
    ensures r.Ok? ==> r.value.tag == getTag(f.fun, Some(a))
  {
    if f.bound.Some? then Err(AlreadyBound)
    else Ok(MakeUserFactory(f.cls, f.fun, Some(a), getTag))
  }

  /**
   * `UserFactory.load`. In order: refuse inside a container session; call
   * the procedure with the bound pair (or with nothing); refuse a result
   * that is not an instance of the factory's class; let the session create
   * the object and return the id it assigns.
   */
  function Load(f: UserFactory, ctx: LoadContext): (o: LoadOutcome)
    ensures ctx.containerSession ==> o.result == Err(InsideContainer) && o.effects == []
    ensures !ctx.containerSession ==> |o.effects| >= 1 && o.effects[0] == Called(f.fun, CallArgs(f))
    ensures o.result.Ok? <==> !ctx.containerSession && f.cls in ctx.call(f.fun, CallArgs(f)).classes
    ensures o.result.Ok? ==>
      var obj := ctx.call(f.fun, CallArgs(f));
      o.effects == [Called(f.fun, CallArgs(f)), Created(obj)] && o.result.value == ctx.createObject(obj)
    ensures o.result.Err? ==> forall e :: e in o.effects ==> !e.Created?
    ensures o.result == Err(WrongType(f.cls)) ==> o.effects == [Called(f.fun, CallArgs(f))]
    ensures o.result == Err(WrongType(f.cls)) <==> !ctx.containerSession && o.result.Err?
  {
    if ctx.containerSession then
      LoadOutcome(Err(InsideContainer), [])
    else
      var args := CallArgs(f);
      var obj := ctx.call(f.fun, args);
      if f.cls !in obj.classes then
        LoadOutcome(Err(WrongType(f.cls)), [Called(f.fun, args)])
      else
        LoadOutcome(Ok(ctx.createObject(obj)), [Called(f.fun, args), Created(obj)])
  }

  /** Binding is single-shot: a factory produced by binding cannot be bound again. */
  lemma BindIsSingleShot(f: UserFactory, a: ArgsKwargs, b: ArgsKwargs,
                         getTag: (UserFun, Option<ArgsKwargs>) -> string)
    requires Bind(f, a, getTag).Ok?
    ensures Bind(Bind(f, a, getTag).value, b, getTag) == Err(AlreadyBound)
    ensures Bind(f, b, getTag).Ok?
  {
  }

  /**
   * Id stealing: loading a factory bound to `a` calls the procedure with
   * exactly `a` and, when the type check passes, yields the id the session
   * assigned to the object that call produced.
   */
  lemma LoadBoundUsesArgs(f: UserFactory, a: ArgsKwargs, getTag: (UserFun, Option<ArgsKwargs>) -> string,
                          ctx: LoadContext)
    requires Bind(f, a, getTag).Ok?
    requires !ctx.containerSession
    ensures var o := Load(Bind(f, a, getTag).value, ctx);
      && o.effects[0] == Called(f.fun, a)
      && (f.cls in ctx.call(f.fun, a).classes ==> o.result == Ok(ctx.createObject(ctx.call(f.fun, a))))
      && (f.cls !in ctx.call(f.fun, a).classes ==> o.result == Err(WrongType(f.cls)))
  {
  }

  // ---------------------------------------------------------------------
  // Shared-object factories

  datatype SharedFactory = SharedFactory(shareLabel: string, namespace: string, tag: string)

  /** The tag format of a shared-object factory. */
  function ShareTag(shareLabel: string, namespace: string): string {
    "SHARE(" + shareLabel + ", " + namespace + ")"
  }

  /** `SharedObjectFactory.__init__`. */
  function MakeSharedFactory(shareLabel: string, namespace: string): (f: SharedFactory)
    ensures f.shareLabel == shareLabel && f.namespace == namespace
    ensures f.tag == ShareTag(shareLabel, namespace)
  {
    SharedFactory(shareLabel, namespace, ShareTag(shareLabel, namespace))
  }

  /** `SharedObjectFactory.load`: the id of the object published under `(label, namespace)`. */
  function SharedLoad(f: SharedFactory, use: (string, string) -> string): (id: string)
    ensures id == use(f.shareLabel, f.namespace)
  {
    use(f.shareLabel, f.namespace)
  }

  /**
   * The tag determines the `(label, namespace)` pair as long as the label
   * holds no comma, so two shared factories with the same tag resolve
   * through the same lookup and load the same id.
   */
  lemma {:induction false} ShareTagInjective(l1: string, n1: string, l2: string, n2: string)
    requires ',' !in l1 && ',' !in l2
    requires ShareTag(l1, n1) == ShareTag(l2, n2)
    ensures l1 == l2 && n1 == n2
  {
    var t := ShareTag(l1, n1);
    // The first comma after the "SHARE(" prefix ends the label.
    assert t[6..] == l1 + [','] + (" " + n1 + ")");
    assert t[6..] == l2 + [','] + (" " + n2 + ")");
    Strings.IndexOfAfterPrefix(l1, ',', " " + n1 + ")");
    Strings.IndexOfAfterPrefix(l2, ',', " " + n2 + ")");
    assert l1 == t[6..6 + |l1|] == l2;
    assert n1 == t[8 + |l1|..|t| - 1] == n2;
  }

  lemma SameShareTagSameId(f: SharedFactory, g: SharedFactory, use: (string, string) -> string)
    requires f == MakeSharedFactory(f.shareLabel, f.namespace) && g == MakeSharedFactory(g.shareLabel, g.namespace)
    requires ',' !in f.shareLabel && ',' !in g.shareLabel
    requires f.tag == g.tag
    ensures SharedLoad(f, use) == SharedLoad(g, use)
  {
    ShareTagInjective(f.shareLabel, f.namespace, g.shareLabel, g.namespace);
  }

  /**
   * Without that restriction the format is ambiguous: a label holding ", "
   * can make two different pairs share one tag.
   */
  lemma ShareTagAmbiguous()
    ensures ShareTag("a, b", "c") == ShareTag("a", "b, c")
  {
  }
}
