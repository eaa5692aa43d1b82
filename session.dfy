/**
 * The session (polyester/session.py): it joins objects to itself, keeps the
 * functions registered on it, and runs the start/stop protocol against the
 * remote service. Remote calls are recorded, in order, in an event log; the
 * answers the service gives are functions of the request.
 */
module Sessions {
  import opened Wrappers
  import Strings

  type Tag = string

  datatype Client = Client(clientId: string)

  /** The configuration an object is built from (its `args`). */
  datatype Definition =
    | FunctionDef(rawF: string, image: string)  // a function wrapped by `image.function(raw_f)`
    | OtherDef(kind: string, config: string)

  /** One entry of a `SessionGetLogs` stream. */
  datatype LogEntry = LogEntry(data: string, fd: nat, done: bool)

  /** The remote calls a session makes, as they reach the service. */
  datatype Event =
    | SessionCreate(clientId: string)
    | ObjectCreateOrGet(sessionId: Option<string>, tag: Option<Tag>, args: Definition)
    | GetLogs(sessionId: Option<string>, draining: bool)
    | SessionStop(sessionId: Option<string>)

  /**
   * The service's answers: the id `SessionCreate` returns for a client, and
   * the id an object's `_create_or_get` obtains for its session, tag and
   * configuration.
   */
  datatype Remote = Remote(
    sessionCreate: string -> string,
    createOrGet: (Option<string>, Option<Tag>, Definition) -> string)

  // ---------------------------------------------------------------------
  // Python dicts keyed by tag: insertion order plus a map

  datatype Dict<V> = Dict(order: seq<Tag>, entries: map<Tag, V>)

  predicate Distinct<K(==)>(s: seq<K>) {
    forall i, j :: 0 <= i < j < |s| ==> s[i] != s[j]
  }

  predicate ValidDict<V>(d: Dict<V>) {
    && Distinct(d.order)
    && (forall k :: k in d.entries ==> k in d.order)
    && (forall k :: k in d.order ==> k in d.entries)
  }

  /** `d[k] = v`: an existing key keeps its place, a new key goes last. */
  function Insert<V>(d: Dict<V>, k: Tag, v: V): (r: Dict<V>)
    requires ValidDict(d)
    ensures ValidDict(r)
  {
    if k in d.entries then Dict(d.order, d.entries[k := v])
    else Dict(d.order + [k], d.entries[k := v])
  }

  /** `d |= pairs`: each pair assigned in turn, as `dict.update` does. */
  function Update<V>(d: Dict<V>, pairs: seq<(Tag, V)>): (r: Dict<V>)
    requires ValidDict(d)
    ensures ValidDict(r)
  {
    if pairs == [] then d
    else
      var n := |pairs| - 1;
      Insert(Update(d, pairs[..n]), pairs[n].0, pairs[n].1)
  }

  /** `d |= pairs` keeps the keys of `d` in their places at the front. */
  lemma {:induction false} UpdateKeepsOrder<V>(d: Dict<V>, pairs: seq<(Tag, V)>)
    requires ValidDict(d)
    ensures |Update(d, pairs).order| >= |d.order| && Update(d, pairs).order[..|d.order|] == d.order
  {
    if pairs != [] {
      var u := Update(d, pairs[..|pairs| - 1]);
      UpdateKeepsOrder(d, pairs[..|pairs| - 1]);
      assert Update(d, pairs).order[..|u.order|] == u.order;
    }
  }

  /** After `d |= pairs` with distinct keys, every pair's key holds its value. */
  lemma {:induction false} UpdateAssigns<V>(d: Dict<V>, pairs: seq<(Tag, V)>)
    requires ValidDict(d)
    requires forall i, j :: 0 <= i < j < |pairs| ==> pairs[i].0 != pairs[j].0
    ensures forall j :: 0 <= j < |pairs| ==>
      pairs[j].0 in Update(d, pairs).entries && Update(d, pairs).entries[pairs[j].0] == pairs[j].1
  {
    if pairs != [] {
      var n := |pairs| - 1;
      UpdateAssigns(d, pairs[..n]);
      var u := Update(d, pairs[..n]);
      forall j | 0 <= j < n
        ensures pairs[j].0 in Update(d, pairs).entries && Update(d, pairs).entries[pairs[j].0] == pairs[j].1
      {
        assert pairs[..n][j] == pairs[j];
      }
    }
  }

  /** `d |= pairs` leaves every key of `d` that no pair names as it was. */
  lemma {:induction false} UpdateKeepsOthers<V>(d: Dict<V>, pairs: seq<(Tag, V)>, t: Tag)
    requires ValidDict(d)
    requires t in d.entries && forall j :: 0 <= j < |pairs| ==> pairs[j].0 != t
    ensures t in Update(d, pairs).entries && Update(d, pairs).entries[t] == d.entries[t]
  {
    if pairs != [] {
      UpdateKeepsOthers(d, pairs[..|pairs| - 1], t);
    }
  }

  /** Every entry after `d |= pairs` comes from `d` or from one of the pairs. */
  lemma {:induction false} UpdateFrom<V>(d: Dict<V>, pairs: seq<(Tag, V)>, t: Tag)
    requires ValidDict(d)
    requires t in Update(d, pairs).entries
    ensures (t in d.entries && Update(d, pairs).entries[t] == d.entries[t])
      || (exists j :: 0 <= j < |pairs| && pairs[j] == (t, Update(d, pairs).entries[t]))
  {
    if pairs != [] {
      var n := |pairs| - 1;
      var u := Update(d, pairs[..n]);
      var v := Update(d, pairs).entries[t];
      if t == pairs[n].0 {
        assert pairs[n] == (t, v);
      } else {
        UpdateFrom(d, pairs[..n], t);
        if !(t in d.entries && v == d.entries[t]) {
          var j :| 0 <= j < n && pairs[..n][j] == (t, v);
          assert pairs[j] == (t, v);
        }
      }
    }
  }

  /** The `(key, value)` pairs of `d.items()`, in order. */
  function Items<V>(d: Dict<V>): (r: seq<(Tag, V)>)
    requires ValidDict(d)
    ensures |r| == |d.order|
    ensures forall i :: 0 <= i < |r| ==> r[i] == (d.order[i], d.entries[d.order[i]])
  {
    PairsInOrder(d.order, d.entries)
  }

  function PairsInOrder<V>(order: seq<Tag>, entries: map<Tag, V>): (r: seq<(Tag, V)>)
    requires forall k :: k in order ==> k in entries
    ensures |r| == |order|
    ensures forall i :: 0 <= i < |r| ==> r[i] == (order[i], entries[order[i]])
  {
    if order == [] then [] else [(order[0], entries[order[0]])] + PairsInOrder(order[1..], entries)
  }

  // ---------------------------------------------------------------------
  // Function tags

  /** The tag `run` gives the i-th registered function. */
  function FunTag(i: nat): Tag {
    "fun_" + Strings.NatToString(i)
  }

  lemma FunTagInjective(i: nat, j: nat)
    requires FunTag(i) == FunTag(j)
    ensures i == j
  {
    assert FunTag(i)[4..] == Strings.NatToString(i);
    assert FunTag(j)[4..] == Strings.NatToString(j);
    Strings.NatToStringInjective(i, j);
  }

  lemma FunTagsDistinct(n: nat)
    ensures forall i, j :: 0 <= i < n && 0 <= j < n && FunTag(i) == FunTag(j) ==> i == j
  {
    forall i, j | 0 <= i < n && 0 <= j < n && FunTag(i) == FunTag(j) ensures i == j {
      FunTagInjective(i, j);
    }
  }

  /** The items of `{f"fun_{i}": fun for i, fun in enumerate(fs)}`. */
  function FunctionPairs<V>(fs: seq<V>): (r: seq<(Tag, V)>)
    ensures |r| == |fs|
    ensures forall i :: 0 <= i < |fs| ==> r[i] == (FunTag(i), fs[i])
  {
    if fs == [] then [] else FunctionPairs(fs[..|fs| - 1]) + [(FunTag(|fs| - 1), fs[|fs| - 1])]
  }

  /** The objects `run` joins: the session's attributes, then `|=` its functions as `fun_<i>`. */
  function RunObjects<V>(attrs: Dict<V>, fs: seq<V>): (d: Dict<V>)
    requires ValidDict(attrs)
    ensures ValidDict(d)
  {
    Update(attrs, FunctionPairs(fs))
  }

  /**
   * The i-th registered function is joined under `fun_<i>`, even when an
   * attribute has that name; every other attribute keeps its own object and
   * its place at the front; nothing else is joined.
   */
  lemma RunObjectsTags<V>(attrs: Dict<V>, fs: seq<V>)
    requires ValidDict(attrs)
    ensures forall i :: 0 <= i < |fs| ==>
      FunTag(i) in RunObjects(attrs, fs).entries && RunObjects(attrs, fs).entries[FunTag(i)] == fs[i]
    ensures forall t :: t in attrs.entries && (forall i :: 0 <= i < |fs| ==> t != FunTag(i)) ==>
      t in RunObjects(attrs, fs).entries && RunObjects(attrs, fs).entries[t] == attrs.entries[t]
    ensures forall t :: t in RunObjects(attrs, fs).entries ==>
      (t in attrs.entries && RunObjects(attrs, fs).entries[t] == attrs.entries[t])
      || (exists i :: 0 <= i < |fs| && t == FunTag(i) && RunObjects(attrs, fs).entries[t] == fs[i])
    ensures |RunObjects(attrs, fs).order| >= |attrs.order|
    ensures RunObjects(attrs, fs).order[..|attrs.order|] == attrs.order
  {
    var pairs := FunctionPairs(fs);
    var r := RunObjects(attrs, fs);
    FunTagsDistinct(|fs|);
    UpdateAssigns(attrs, pairs);
    UpdateKeepsOrder(attrs, pairs);
    forall t | t in attrs.entries && (forall i :: 0 <= i < |fs| ==> t != FunTag(i))
      ensures t in r.entries && r.entries[t] == attrs.entries[t]
    {
      UpdateKeepsOthers(attrs, pairs, t);
    }
    forall t | t in r.entries
      ensures (t in attrs.entries && r.entries[t] == attrs.entries[t])
        || (exists i :: 0 <= i < |fs| && t == FunTag(i) && r.entries[t] == fs[i])
    {
      UpdateFrom(attrs, pairs, t);
      if !(t in attrs.entries && r.entries[t] == attrs.entries[t]) {
        var j :| 0 <= j < |pairs| && pairs[j] == (t, r.entries[t]);
        assert t == FunTag(j) && r.entries[t] == fs[j];
      }
    }
  }

  /** The create-or-get requests `run` issues for `items`, one per entry, in order. */
  function CreateEvents(items: seq<(Tag, Obj)>, sessionId: Option<string>): (es: seq<Event>)
    ensures |es| == |items|
    ensures forall i :: 0 <= i < |items| ==> es[i] == ObjectCreateOrGet(sessionId, Some(items[i].0), items[i].1.args)
  {
    if items == [] then []
    else CreateEvents(items[..|items| - 1], sessionId) + [CreateEvent(items[|items| - 1], sessionId)]
  }

  function CreateEvent(item: (Tag, Obj), sessionId: Option<string>): Event {
    ObjectCreateOrGet(sessionId, Some(item.0), item.1.args)
  }

  /** The tag a create-or-get request carries (none for the other requests). */
  function RequestTag(e: Event): Option<Tag> {
    if e.ObjectCreateOrGet? then e.tag else None
  }

  /**
   * In the requests for a dict's items, each of its keys is the tag of
   * exactly one request, every request is in the session and carries a key.
   */
  lemma EachTagOnce(d: Dict<Obj>, sessionId: Option<string>, es: seq<Event>)
    requires ValidDict(d) && es == CreateEvents(Items(d), sessionId)
    ensures forall t :: t in d.entries ==> exists i :: 0 <= i < |es| && RequestTag(es[i]) == Some(t)
    ensures forall i, j :: 0 <= i < j < |es| ==> RequestTag(es[i]) != RequestTag(es[j])
    ensures forall i :: 0 <= i < |es| ==>
      es[i] == ObjectCreateOrGet(sessionId, Some(d.order[i]), d.entries[d.order[i]].args)
  {
    var items := Items(d);
    forall i | 0 <= i < |es|
      ensures es[i] == ObjectCreateOrGet(sessionId, Some(d.order[i]), d.entries[d.order[i]].args)
    {
      assert items[i] == (d.order[i], d.entries[d.order[i]]);
    }
    forall t | t in d.entries ensures exists i :: 0 <= i < |es| && RequestTag(es[i]) == Some(t) {
      var i :| 0 <= i < |d.order| && d.order[i] == t;
      assert RequestTag(es[i]) == Some(t);
    }
  }

  // ---------------------------------------------------------------------
  // Log forwarding

  /** What `_get_logs` forwards from a stream: entries up to, not including, the first done one. */
  function Forwarded(s: seq<LogEntry>): seq<(string, nat)> {
    if s == [] || s[0].done then [] else [(s[0].data, s[0].fd)] + Forwarded(s[1..])
  }

  /** Index of the first done entry, or the length of the stream. */
  function FirstDone(s: seq<LogEntry>): (k: nat)
    ensures k <= |s|
    ensures forall j :: 0 <= j < k ==> !s[j].done
    ensures k < |s| ==> s[k].done
  {
    if s == [] then 0 else if s[0].done then 0 else FirstDone(s[1..]) + 1
  }

  /** Forwarding keeps the order and the content of every entry before the first done one. */
  lemma {:induction false} ForwardedIsPrefix(s: seq<LogEntry>)
    ensures |Forwarded(s)| == FirstDone(s)
    ensures forall j :: 0 <= j < FirstDone(s) ==> Forwarded(s)[j] == (s[j].data, s[j].fd)
  {
    if s != [] && !s[0].done {
      ForwardedIsPrefix(s[1..]);
    }
  }

  /** Nothing after a done entry is forwarded. */
  lemma {:induction false} NothingAfterDone(p: seq<LogEntry>, e: LogEntry, rest: seq<LogEntry>)
    requires e.done
    ensures Forwarded(p + [e] + rest) == Forwarded(p + [e])
  {
    if p == [] {
      assert (p + [e] + rest)[0] == e;
    } else {
      assert (p + [e] + rest)[1..] == p[1..] + [e] + rest;
      assert (p + [e])[1..] == p[1..] + [e];
      NothingAfterDone(p[1..], e, rest);
    }
  }

  lemma {:induction false} ForwardedAppend(p: seq<LogEntry>, e: LogEntry)
    requires forall j :: 0 <= j < |p| ==> !p[j].done
    requires !e.done
    ensures Forwarded(p + [e]) == Forwarded(p) + [(e.data, e.fd)]
  {
    if p != [] {
      assert (p + [e])[1..] == p[1..] + [e];
      ForwardedAppend(p[1..], e);
    }
  }

  lemma {:induction false} ForwardedUpTo(s: seq<LogEntry>, i: nat)
    requires i <= |s| && forall j :: 0 <= j < i ==> !s[j].done
    requires i == |s| || s[i].done
    ensures Forwarded(s) == Forwarded(s[..i])
  {
    if i == |s| {
      assert s[..i] == s;
    } else {
      assert s == s[..i] + [s[i]] + s[i + 1..];
      NothingAfterDone(s[..i], s[i], s[i + 1..]);
      assert Forwarded(s[..i] + [s[i]]) == Forwarded(s[..i]) by {
        DoneEndsForwarding(s[..i], s[i]);
      }
    }
  }

  lemma {:induction false} DoneEndsForwarding(p: seq<LogEntry>, e: LogEntry)
    requires e.done
    ensures Forwarded(p + [e]) == Forwarded(p)
  {
    if p != [] {
      if !p[0].done {
        assert (p + [e])[1..] == p[1..] + [e];
        DoneEndsForwarding(p[1..], e);
      }
    }
  }

  // ---------------------------------------------------------------------
  // Objects and the session

  /** A remote object as the session sees it. */
  class Obj {
    const args: Definition
    var session: Session?
    var tag: Option<Tag>
    var client: Option<Client>
    var objectId: Option<string>
    var created: bool

    constructor (args: Definition)
      ensures this.args == args
      ensures session == null && tag == None && client == None && objectId == None && !created
    {
      this.args := args;
      session, tag, client, objectId, created := null, None, None, None, false;
    }
  }

  /** The objects of a list of `(tag, object)` items, in order. */
  function ObjectsOf(items: seq<(Tag, Obj)>): (r: seq<Obj>)
    ensures |r| == |items| && forall i :: 0 <= i < |items| ==> r[i] == items[i].1
  {
    if items == [] then [] else [items[0].1] + ObjectsOf(items[1..])
  }

  class Session {
    const remote: Remote
    var client: Option<Client>
    var sessionId: Option<string>
    var functions: seq<Obj>
    /** The remote calls made so far, in order. */
    var events: seq<Event>
    /** Log lines handed to `print_logs`, as (data, fd). */
    var printed: seq<(string, nat)>

    constructor (remote: Remote)
      ensures this.remote == remote
      ensures client == None && sessionId == None && functions == [] && events == [] && printed == []
    {
      this.remote := remote;
      client, sessionId, functions, events, printed := None, None, [], [], [];
    }

    /** `o` is joined to this session under `t`, with the id the service gave it. */
    predicate JoinedAs(o: Obj, t: Option<Tag>)
      reads o, this`client, this`sessionId
    {
      && o.session == this
      && o.tag == t
      && o.client == client
      && o.objectId == Some(remote.createOrGet(sessionId, t, o.args))
      && o.created
    }

    /**
     * `create_or_get`: binds the object (or, with `returnCopy`, a fresh copy
     * of its configuration, leaving the template untouched) to this session
     * and its client under `tag`, and records the id obtained for it.
     */
    method CreateOrGet(obj: Obj, tag: Option<Tag>, returnCopy: bool) returns (r: Obj)
      modifies this`events, obj
      ensures returnCopy ==> fresh(r) && unchanged(obj)
      ensures !returnCopy ==> r == obj
      ensures r.args == obj.args
      ensures JoinedAs(r, tag)
      ensures events == old(events) + [ObjectCreateOrGet(sessionId, tag, obj.args)]
    {
      r := obj;
      if returnCopy {
        r := new Obj(obj.args);
      }
      r.session := this;
      r.tag := tag;
      r.client := client;
      events := events + [ObjectCreateOrGet(sessionId, tag, r.args)];
      r.objectId := Some(remote.createOrGet(sessionId, tag, r.args));
      r.created := true;
    }

    /** `function`: registers a new function object after the earlier ones and returns it. */
    method Function(rawF: string, image: string) returns (fun: Obj)
      modifies this`functions
      ensures fresh(fun) && fun.args == FunctionDef(rawF, image)
      ensures functions == old(functions) + [fun]
    {
      fun := new Obj(FunctionDef(rawF, image));
      functions := functions + [fun];
    }

    /** `_get_logs`: one `SessionGetLogs` request, forwarding its stream until the done entry. */
    method GetLogsOnce(draining: bool, stream: seq<LogEntry>)
      modifies this`events, this`printed
      ensures events == old(events) + [GetLogs(sessionId, draining)]
      ensures printed == old(printed) + Forwarded(stream)
    {
      events := events + [GetLogs(sessionId, draining)];
      var i := 0;
      while i < |stream|
        invariant 0 <= i <= |stream|
        invariant events == old(events) + [GetLogs(sessionId, draining)]
        invariant forall j :: 0 <= j < i ==> !stream[j].done
        invariant printed == old(printed) + Forwarded(stream[..i])
      {
        if stream[i].done {
          break;
        }
        assert stream[..i + 1] == stream[..i] + [stream[i]];
        ForwardedAppend(stream[..i], stream[i]);
        printed := printed + [(stream[i].data, stream[i].fd)];
        i := i + 1;
      }
      ForwardedUpTo(stream, i);
    }

    /**
     * Every object of `items[..n]` is joined under the tag of its last
     * occurrence there (an object listed twice is left as the later join set it).
     */
    predicate JoinedUpTo(items: seq<(Tag, Obj)>, n: nat)
      requires n <= |items|
      reads this`client, this`sessionId, ObjectsOf(items)
    {
      forall k :: 0 <= k < n && (forall j :: k < j < n ==> items[j].1 != items[k].1) ==>
        assert ObjectsOf(items)[k] == items[k].1; JoinedAs(items[k].1, Some(items[k].0))
    }

    predicate AllJoined(items: seq<(Tag, Obj)>)
      reads this`client, this`sessionId, ObjectsOf(items)
    {
      JoinedUpTo(items, |items|)
    }

    /** The start of `run`: adopt the client (the current one if none is given) and open the session. */
    method Start(client: Option<Client>, current: Client)
      modifies this`client, this`sessionId, this`events
      ensures this.client == Some(if client.Some? then client.value else current)
      ensures sessionId == Some(remote.sessionCreate(this.client.value.clientId))
      ensures events == old(events) + [SessionCreate(this.client.value.clientId)]
    {
      this.client := Some(if client.Some? then client.value else current);
      var cid := this.client.value.clientId;
      events := events + [SessionCreate(cid)];
      sessionId := Some(remote.sessionCreate(cid));
    }


    /** The end of `run`: ask the service to stop the session, then fetch the straggling logs. */
    method Stop(drain: seq<LogEntry>)
      modifies this`events, this`printed
      ensures events == old(events) + [SessionStop(sessionId), GetLogs(sessionId, true)]
      ensures printed == old(printed) + Forwarded(drain)
    {
      events := events + [SessionStop(sessionId)];
      GetLogsOnce(true, drain);
    }

    /** One step of the loop of `run`: `create_or_get(obj, tag)` for the i-th item. */
    method JoinOne(items: seq<(Tag, Obj)>, i: nat, ghost before: seq<Event>)
      requires i < |items| && JoinedUpTo(items, i)
      requires events == before + CreateEvents(items[..i], sessionId)
      modifies this`events, items[i].1
      ensures events == before + CreateEvents(items[..i + 1], sessionId)
      ensures JoinedUpTo(items, i + 1)
    {
      assert items[..i + 1][..i] == items[..i];
      var (tag, obj) := items[i];
      label before:
      var _ := CreateOrGet(obj, Some(tag), false);
      forall k | 0 <= k < i + 1 && (forall j :: k < j < i + 1 ==> items[j].1 != items[k].1)
        ensures JoinedAs(items[k].1, Some(items[k].0))
      {
        if k < i {
          assert items[i].1 != items[k].1;
          assert old@before(JoinedAs(items[k].1, Some(items[k].0)));
        }
      }
    }

    /** The loop of `run` over the object map: `create_or_get(obj, tag)` for each item in order. */
    method JoinAll(items: seq<(Tag, Obj)>)
      modifies this`events, ObjectsOf(items)
      ensures events == old(events) + CreateEvents(items, sessionId)
      ensures AllJoined(items)
    {
      var i := 0;
      while i < |items|
        invariant 0 <= i <= |items|
        invariant events == old(events) + CreateEvents(items[..i], sessionId)
        invariant JoinedUpTo(items, i)
      {
        assert ObjectsOf(items)[i] == items[i].1;
        JoinOne(items, i, old(events));
        i := i + 1;
      }
      assert items[..i] == items;
    }

    /** The rest of `run` once the session is open: the joins, then (unless the block raised) the stop. */
    method JoinThenStop(items: seq<(Tag, Obj)>, blockRaises: bool, drain: seq<LogEntry>)
      modifies this`events, this`printed, ObjectsOf(items)
      ensures client == old(client) && sessionId == old(sessionId) && functions == old(functions)
      ensures events == old(events) + CreateEvents(items, sessionId)
                        + (if blockRaises then [] else [SessionStop(sessionId), GetLogs(sessionId, true)])
      ensures AllJoined(items)
      ensures printed == old(printed) + if blockRaises then [] else Forwarded(drain)
    {
      JoinAll(items);
      if !blockRaises {
        Stop(drain);
      }
    }

    /**
     * `run`, with the caller's block in the middle: set the client, start
     * the session, join every attribute and every registered function under
     * its tag, run the block, then stop the session and drain the logs.
     * When the block raises, the code after `yield` does not run, so neither
     * the stop request nor the final drain is sent.
     */
    method Run(client: Option<Client>, current: Client, attrs: Dict<Obj>, blockRaises: bool,
               drain: seq<LogEntry>)
      returns (items: seq<(Tag, Obj)>)
      requires ValidDict(attrs)
      modifies this, ObjectsOf(Items(RunObjects(attrs, functions)))
      ensures this.client == Some(if client.Some? then client.value else current)
      ensures sessionId == Some(remote.sessionCreate(this.client.value.clientId))
      ensures functions == old(functions)
      ensures items == Items(RunObjects(attrs, old(functions)))
      ensures events == old(events) + [SessionCreate(this.client.value.clientId)] + CreateEvents(items, sessionId)
                     + (if blockRaises then [] else [SessionStop(sessionId), GetLogs(sessionId, true)])
      ensures AllJoined(items)
      ensures printed == old(printed) + if blockRaises then [] else Forwarded(drain)
    {
      items := Items(RunObjects(attrs, functions));
      Start(client, current);
      JoinThenStop(items, blockRaises, drain);
    }
  }
}
