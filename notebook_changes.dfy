/** The change classifier of the collaborative notebook agent (`_on_notebook_changes`):
    it reads one change record of the shared notebook and calls back either
    "cell source changed" or "user submitted a prompt". Both callbacks only log, so the
    classifier is a pure function returning the calls it makes, in order, and the
    exception it raises, if any. */
module NotebookChanges {
  import opened Json

  /** One step of a change path: a position in an array or a key of a map. */
  datatype PathSegment = Index(i: int) | Key(k: string)

  datatype Action = Add | Update | Delete

  /** The entry of a map event for one key: its action and, when present, old and new values. */
  datatype KeyChange = KeyChange(action: Action, oldValue: Option<Json>, newValue: Option<Json>)

  /** A change record: the document part, the path to the changed node, the changes per key
      (in the order the document reports them) and the changed node itself. */
  datatype ChangeRecord = ChangeRecord(
    part: string,
    path: seq<PathSegment>,
    keys: seq<(string, KeyChange)>,
    target: JsonMap)

  /** The two callbacks: `_on_cell_source_changes` and `_on_user_prompt`. */
  datatype Event =
    | CellSourceChanged(cellId: Json, newSource: Json, oldSource: Json)
    | UserPrompt(cellId: Json, prompt: Json)

  /** What one observer call does: the callbacks it made, then the exception it raised, if any. */
  datatype Dispatch = Dispatch(events: seq<Event>, raised: Option<PyError>)

  const Silent: Dispatch := Dispatch([], None)

  function Raise(e: PyError): Dispatch {
    Dispatch([], Some(e))
  }

  function Emit(e: Event): Dispatch {
    Dispatch([e], None)
  }

  /** Run `first`, then `rest` unless `first` raised. */
  function Then(first: Dispatch, rest: Dispatch): Dispatch {
    if first.raised.Some? then first else Dispatch(first.events + rest.events, rest.raised)
  }

  predicate AddsOrUpdates(a: Action) {
    a == Add || a == Update
  }

  // ---------------------------------------------------------------------------
  // Reading the AI container of a metadata value
  // ---------------------------------------------------------------------------

  /** `new_metadata.get("datalayer", {}).get("ai", {})`; `.get` on a non-mapping raises. */
  function AiContainer(metadata: Json): (r: Result<JsonMap, PyError>)
    ensures r.Failure? ==> r.error == AttributeError
    ensures r.Failure? <==>
      !metadata.JObj?
      || ("datalayer" in metadata.fields
          && (!metadata.fields["datalayer"].JObj?
              || ("ai" in metadata.fields["datalayer"].fields && !metadata.fields["datalayer"].fields["ai"].JObj?)))
    ensures metadata.JObj? && "datalayer" !in metadata.fields ==> r == Success(map[])
    ensures (metadata.JObj? && "datalayer" in metadata.fields && metadata.fields["datalayer"].JObj?
             && "ai" !in metadata.fields["datalayer"].fields) ==> r == Success(map[])
    ensures (metadata.JObj? && "datalayer" in metadata.fields && metadata.fields["datalayer"].JObj?
             && "ai" in metadata.fields["datalayer"].fields && metadata.fields["datalayer"].fields["ai"].JObj?) ==>
      r == Success(metadata.fields["datalayer"].fields["ai"].fields)
  {
    if !metadata.JObj? then Failure(AttributeError)
    else
      var datalayer := Get(metadata.fields, "datalayer", EmptyObj);
      if !datalayer.JObj? then Failure(AttributeError)
      else
        var ai := Get(datalayer.fields, "ai", EmptyObj);
        if !ai.JObj? then Failure(AttributeError) else Success(ai.fields)
  }

  /** The items Python visits when iterating `container.get(key, [])`: a list yields its
      items, an empty string or mapping yields nothing, a non-empty string or mapping yields
      strings (which the caller's `item[key]` rejects) and a scalar is not iterable. */
  function ListAt(container: JsonMap, key: string): (r: Result<seq<Json>, PyError>)
    ensures key !in container ==> r == Success([])
    ensures key in container && container[key].JArr? ==> r == Success(container[key].items)
    ensures r.Success? <==>
      key !in container || container[key].JArr? || container[key] == JStr("") || container[key] == EmptyObj
    ensures r.Success? && !(key in container && container[key].JArr?) ==> r.value == []
    ensures r.Failure? ==> r.error == TypeError
  {
    match Get(container, key, JArr([]))
    case JArr(items) => Success(items)
    case JStr(s) => if s == "" then Success([]) else Failure(TypeError)
    case JObj(fields) => if fields == map[] then Success([]) else Failure(TypeError)
    case _ => Failure(TypeError)
  }

  /** Whether `item[key]` can be read and put in a set. */
  predicate HasHashableKey(item: Json, key: string) {
    item.JObj? && key in item.fields && Hashable(item.fields[key])
  }

  /** `{item[key] for item in items}`: raises at the first item that is not a mapping
      holding a hashable value under `key`. The set holds one member per Python equality
      class (`SetMember`), so `True` and `1` count once. */
  function KeySet(items: seq<Json>, key: string): (r: Result<set<Json>, PyError>)
    ensures r.Success? <==> forall i | 0 <= i < |items| :: HasHashableKey(items[i], key)
    ensures r.Success? ==>
      r.value == set i | 0 <= i < |items| && HasHashableKey(items[i], key) :: SetMember(items[i].fields[key])
    ensures r.Failure? ==> r.error == TypeError || r.error == KeyError(key)
    decreases |items|
  {
    if items == [] then Success({})
    else
      var item := items[0];
      if !item.JObj? then Failure(TypeError)
      else if key !in item.fields then Failure(KeyError(key))
      else if !Hashable(item.fields[key]) then Failure(TypeError)
      else
        var rest :- KeySet(items[1..], key);
        assert forall i | 1 <= i < |items| :: items[i] == items[1..][i - 1];
        Success({SetMember(item.fields[key])} + rest)
  }

  /** The prompts still awaiting a reply: the prompt ids minus the messages' `parent_id`s,
      compared as Python's set difference compares them (`True` answers `1`). */
  function Unanswered(ai: JsonMap): Result<set<Json>, PyError> {
    var prompts :- ListAt(ai, "prompts");
    var promptIds :- KeySet(prompts, "id");
    var messages :- ListAt(ai, "messages");
    var parentIds :- KeySet(messages, "parent_id");
    Success(promptIds - parentIds)
  }

  /** The unanswered prompts of a whole metadata value. */
  function PendingPrompts(metadata: Json): Result<set<Json>, PyError> {
    var ai :- AiContainer(metadata);
    Unanswered(ai)
  }

  // ---------------------------------------------------------------------------
  // Per-key handlers
  // ---------------------------------------------------------------------------

  predicate HasTruthyId(p: Json) {
    p.JObj? && Truthy(Get(p.fields, "id", JNull))
  }

  /** `filter(lambda p: p.get("id"), prompts)` */
  function WithTruthyId(prompts: seq<Json>): (r: seq<Json>)
    ensures |r| <= |prompts|
    ensures forall p :: p in r <==> p in prompts && HasTruthyId(p)
    decreases |prompts|
  {
    if prompts == [] then []
    else
      assert prompts == [prompts[0]] + prompts[1..];
      (if HasTruthyId(prompts[0]) then [prompts[0]] else []) + WithTruthyId(prompts[1..])
  }

  /** `filter` keeps the prompts' order: filtering a concatenation concatenates the results. */
  lemma {:induction false} WithTruthyIdAppend(a: seq<Json>, b: seq<Json>)
    ensures WithTruthyId(a + b) == WithTruthyId(a) + WithTruthyId(b)
    decreases |a|
  {
    if a == [] {
      assert a + b == b;
    } else {
      assert (a + b)[1..] == a[1..] + b;
      assert (a + b)[0] == a[0];
      WithTruthyIdAppend(a[1..], b);
      var head := if HasTruthyId(a[0]) then [a[0]] else [];
      assert head + (WithTruthyId(a[1..]) + WithTruthyId(b)) == (head + WithTruthyId(a[1..])) + WithTruthyId(b);
    }
  }

  function PromptEvents(cellId: Json, prompts: seq<Json>): seq<Event> {
    seq(|prompts|, i requires 0 <= i < |prompts| => UserPrompt(cellId, prompts[i]))
  }

  /** One `_on_user_prompt(changes.target["id"], prompt)` per selected prompt; the target id
      is read at the first call, so a target without one raises only if a prompt is selected. */
  function PromptsFor(target: JsonMap, selected: seq<Json>): (r: Dispatch)
    ensures r.raised.Some? <==> selected != [] && "id" !in target
    ensures r.raised.None? ==> |r.events| == |selected|
    ensures r.raised.None? ==> forall i | 0 <= i < |selected| :: r.events[i] == UserPrompt(target["id"], selected[i])
  {
    if selected == [] then Silent
    else if "id" !in target then Raise(KeyError("id"))
    else Dispatch(PromptEvents(target["id"], selected), None)
  }

  /** Whether the change entry carries the values the action's call reads with `[]`. */
  predicate CarriesValuesFor(change: KeyChange) {
    match change.action
    case Add => change.newValue.Some?
    case Update => change.newValue.Some? && change.oldValue.Some?
    case Delete => change.oldValue.Some?
  }

  /** The "source" key of a change on one cell. The callback's arguments are evaluated left
      to right, so a missing cell id is reported before a missing value; an absent old value
      on "add" reads as "", an absent new value on "delete" reads as None. */
  function SourceChange(target: JsonMap, change: KeyChange): (r: Dispatch)
    ensures r.raised.None? <==> "id" in target && CarriesValuesFor(change)
    ensures r.raised.None? ==> r.events == [CellSourceChanged(
      target["id"],
      change.newValue.GetOr(JNull),
      change.oldValue.GetOr(JStr("")))]
    ensures r.raised.Some? ==> r.events == []
  {
    if "id" !in target then Raise(KeyError("id"))
    else
      var cellId := target["id"];
      match change.action
      case Add =>
        if change.newValue.None? then Raise(KeyError("newValue"))
        else Emit(CellSourceChanged(cellId, change.newValue.value, change.oldValue.GetOr(JStr(""))))
      case Update =>
        if change.newValue.None? then Raise(KeyError("newValue"))
        else if change.oldValue.None? then Raise(KeyError("oldValue"))
        else Emit(CellSourceChanged(cellId, change.newValue.value, change.oldValue.value))
      case Delete =>
        if change.oldValue.None? then Raise(KeyError("oldValue"))
        else Emit(CellSourceChanged(cellId, change.newValue.GetOr(JNull), change.oldValue.value))
  }

  /** The "metadata" key of a change on one cell: when some prompt is unanswered and the
      metadata was added or updated, every prompt with a truthy id is reported. */
  function MetadataChange(target: JsonMap, change: KeyChange): Dispatch {
    var newMetadata := change.newValue.GetOr(EmptyObj);
    match AiContainer(newMetadata)
    case Failure(e) => Raise(e)
    case Success(ai) =>
      match Unanswered(ai)
      case Failure(e) => Raise(e)
      case Success(pending) =>
        if pending != {} && AddsOrUpdates(change.action) then
          PromptsFor(target, WithTruthyId(ListAt(ai, "prompts").value))
        else Silent
  }

  /** One key of a change on one cell (path of length 1). */
  function CellKey(target: JsonMap, key: string, change: KeyChange): Dispatch {
    if key == "source" then SourceChange(target, change)
    else if key == "metadata" then MetadataChange(target, change)
    else Silent
  }

  /** One key of a change inside a cell's metadata (path `[index, "metadata"]`): a prompt is
      reported when `newValue.ai.prompt` is truthy and `newValue.ai.messages` is not. */
  function NestedMetadataKey(target: JsonMap, key: string, change: KeyChange): (r: Dispatch)
    ensures key == "datalayer" ==> r == Silent
    ensures key != "datalayer" && change.newValue.Some? && !change.newValue.value.JObj? ==>
      r == Raise(AttributeError)
    ensures |r.events| <= 1
  {
    if key == "datalayer" then Silent
    else
      var newMetadata := change.newValue.GetOr(EmptyObj);
      if !newMetadata.JObj? then Raise(AttributeError)
      else
        var ai := Get(newMetadata.fields, "ai", EmptyObj);
        if !ai.JObj? then Raise(AttributeError)
        else
          var prompt := Get(ai.fields, "prompt", JNull);
          var messages := Get(ai.fields, "messages", JNull);
          if Truthy(prompt) && !Truthy(messages) && AddsOrUpdates(change.action) then
            PromptsFor(target, [prompt])
          else Silent
  }

  /** `for key, change in changes.keys.items(): handle(...)`, stopping at the first exception. */
  function ForEachKey(
    target: JsonMap,
    keys: seq<(string, KeyChange)>,
    handle: (JsonMap, string, KeyChange) -> Dispatch): Dispatch
    decreases |keys|
  {
    if keys == [] then Silent
    else Then(handle(target, keys[0].0, keys[0].1), ForEachKey(target, keys[1..], handle))
  }

  predicate IsCellMetadataPath(path: seq<PathSegment>) {
    |path| == 2 && path[0].Index? && path[1] == Key("metadata")
  }

  /** `_on_notebook_changes(part, changes)`, dispatched on the depth of the change path. */
  function Classify(c: ChangeRecord): (r: Dispatch)
    ensures c.part != "cells" ==> r == Silent
    ensures |c.path| == 0 ==> r == Silent
    ensures |c.path| != 1 && !IsCellMetadataPath(c.path) ==> r == Silent
  {
    if c.part != "cells" then Silent
    else if |c.path| == 0 then Silent  // a change of the cell list itself: not handled
    else if |c.path| == 1 then ForEachKey(c.target, c.keys, CellKey)
    else if IsCellMetadataPath(c.path) then ForEachKey(c.target, c.keys, NestedMetadataKey)
    else Silent
  }

  // ---------------------------------------------------------------------------
  // Properties
  // ---------------------------------------------------------------------------

  lemma ThenAssociative(a: Dispatch, b: Dispatch, c: Dispatch)
    ensures Then(Then(a, b), c) == Then(a, Then(b, c))
  {
  }

  /** Handling the keys of a change one after another: the dispatch of a concatenation of
      key lists is the first list's, then (unless it raised) the second's. */
  lemma {:induction false} ForEachKeyAppend(
    target: JsonMap,
    a: seq<(string, KeyChange)>,
    b: seq<(string, KeyChange)>,
    handle: (JsonMap, string, KeyChange) -> Dispatch)
    ensures ForEachKey(target, a + b, handle) == Then(ForEachKey(target, a, handle), ForEachKey(target, b, handle))
    decreases |a|
  {
    if a == [] {
      assert a + b == b;
    } else {
      assert (a + b)[1..] == a[1..] + b;
      ForEachKeyAppend(target, a[1..], b, handle);
      ThenAssociative(handle(target, a[0].0, a[0].1), ForEachKey(target, a[1..], handle), ForEachKey(target, b, handle));
    }
  }

  /** A key list that does not raise reports, in order, the events of each key. */
  lemma {:induction false} ForEachKeyEvents(
    target: JsonMap,
    keys: seq<(string, KeyChange)>,
    handle: (JsonMap, string, KeyChange) -> Dispatch)
    requires forall i | 0 <= i < |keys| :: handle(target, keys[i].0, keys[i].1).raised.None?
    ensures ForEachKey(target, keys, handle).raised.None?
    ensures ForEachKey(target, keys, handle).events ==
      AllEvents(seq(|keys|, i requires 0 <= i < |keys| => handle(target, keys[i].0, keys[i].1)))
    decreases |keys|
  {
    if keys != [] {
      var ds := seq(|keys|, i requires 0 <= i < |keys| => handle(target, keys[i].0, keys[i].1));
      var rest := seq(|keys| - 1, i requires 0 <= i < |keys| - 1 => handle(target, keys[1..][i].0, keys[1..][i].1));
      assert ds[1..] == rest;
      ForEachKeyEvents(target, keys[1..], handle);
    }
  }

  /** The events of several dispatches, one after the other. */
  function AllEvents(ds: seq<Dispatch>): seq<Event> {
    if ds == [] then [] else ds[0].events + AllEvents(ds[1..])
  }

  /** The "source" and "metadata" keys are the only ones a change on one cell reports. */
  lemma OtherCellKeysSilent(target: JsonMap, key: string, change: KeyChange)
    requires key != "source" && key != "metadata"
    ensures CellKey(target, key, change) == Silent
  {
  }

  /** A one-key change on one cell is classified by that key's handler alone. */
  lemma ClassifySingleCellKey(segment: PathSegment, key: string, change: KeyChange, target: JsonMap)
    ensures Classify(ChangeRecord("cells", [segment], [(key, change)], target)) == CellKey(target, key, change)
  {
    var keys := [(key, change)];
    assert keys[1..] == [];
    var d := CellKey(target, key, change);
    assert d.events + [] == d.events;
    assert ForEachKey(target, keys[1..], CellKey) == Silent;
    assert ForEachKey(target, keys, CellKey) == Then(d, Silent);
    assert Then(d, Silent) == d;
  }

  /** The depth-1 metadata branch. When the AI container reads without error, the change
      reports a prompt exactly when some prompt is unanswered and the metadata was added or
      updated; it then reports every prompt with a truthy id, answered or not, in list order. */
  lemma MetadataPromptEvents(target: JsonMap, change: KeyChange, ai: JsonMap, pending: set<Json>)
    requires AiContainer(change.newValue.GetOr(EmptyObj)) == Success(ai)
    requires Unanswered(ai) == Success(pending)
    requires "id" in target
    ensures ListAt(ai, "prompts").Success?
    ensures var d := MetadataChange(target, change);
      && d.raised.None?
      && (pending == {} || !AddsOrUpdates(change.action) ==> d.events == [])
      && (pending != {} && AddsOrUpdates(change.action) ==>
            var selected := WithTruthyId(ListAt(ai, "prompts").value);
            |d.events| == |selected| &&
            forall i | 0 <= i < |selected| :: d.events[i] == UserPrompt(target["id"], selected[i]))
  {
  }

  /** The re-emission quirk: once any prompt is unanswered, an added or updated metadata
      value reports every prompt whose id is truthy, including answered ones. */
  lemma AnsweredPromptsReported(target: JsonMap, change: KeyChange, ai: JsonMap, pending: set<Json>, p: Json)
    requires AiContainer(change.newValue.GetOr(EmptyObj)) == Success(ai)
    requires Unanswered(ai) == Success(pending) && pending != {}
    requires AddsOrUpdates(change.action) && "id" in target
    requires ListAt(ai, "prompts").Success? && p in ListAt(ai, "prompts").value && HasTruthyId(p)
    ensures UserPrompt(target["id"], p) in MetadataChange(target, change).events
  {
    var selected := WithTruthyId(ListAt(ai, "prompts").value);
    var i :| 0 <= i < |selected| && selected[i] == p;
    MetadataPromptEvents(target, change, ai, pending);
  }

  /** Every prompt answered (every prompt id equals, in Python's sense, some message's parent
      id): no prompt is reported, whatever the action. */
  lemma AllAnsweredSilent(target: JsonMap, change: KeyChange, ai: JsonMap)
    requires AiContainer(change.newValue.GetOr(EmptyObj)) == Success(ai)
    requires Unanswered(ai).Success?
    requires var prompts := ListAt(ai, "prompts").value;
             var messages := ListAt(ai, "messages").value;
             forall i | 0 <= i < |prompts| ::
               exists j | 0 <= j < |messages| :: SetMember(messages[j].fields["parent_id"]) == SetMember(prompts[i].fields["id"])
    ensures MetadataChange(target, change) == Silent
  {
    var prompts := ListAt(ai, "prompts").value;
    var messages := ListAt(ai, "messages").value;
    var ids := KeySet(prompts, "id").value;
    var parents := KeySet(messages, "parent_id").value;
    forall x | x in ids ensures x in parents {
      var i :| 0 <= i < |prompts| && HasHashableKey(prompts[i], "id") && SetMember(prompts[i].fields["id"]) == x;
      var j :| 0 <= j < |messages| && SetMember(messages[j].fields["parent_id"]) == SetMember(prompts[i].fields["id"]);
    }
  }

  /** The depth-2 branch: a key other than "datalayer" whose new value is a mapping with a
      mapping under "ai" reports one prompt exactly when `ai.prompt` is truthy, `ai.messages`
      is not, and the key was added or updated. */
  lemma NestedPromptReported(target: JsonMap, key: string, change: KeyChange, ai: JsonMap)
    requires key != "datalayer" && "id" in target
    requires change.newValue.Some? && change.newValue.value.JObj?
    requires Get(change.newValue.value.fields, "ai", EmptyObj) == JObj(ai)
    ensures var d := NestedMetadataKey(target, key, change);
      var prompt := Get(ai, "prompt", JNull);
      && d.raised.None?
      && (d.events != [] <==>
            Truthy(prompt) && !Truthy(Get(ai, "messages", JNull)) && AddsOrUpdates(change.action))
      && (d.events != [] ==> d.events == [UserPrompt(target["id"], prompt)])
  {
  }

  /** Python's set difference compares `True` with `1`: a prompt whose id is `True` is
      answered by a message whose parent id is `1`, so adding that metadata reports nothing. */
  lemma BooleanIdAnsweredByInteger(target: JsonMap)
    ensures var prompts := JArr([JObj(map["id" := JBool(true)])]);
      var messages := JArr([JObj(map["parent_id" := JInt(1)])]);
      var ai := map["prompts" := prompts, "messages" := messages];
      MetadataChange(target, KeyChange(Add, None, Some(JObj(map["datalayer" := JObj(map["ai" := JObj(ai)])])))) == Silent
  {
    var prompts := [JObj(map["id" := JBool(true)])];
    var messages := [JObj(map["parent_id" := JInt(1)])];
    var ai := map["prompts" := JArr(prompts), "messages" := JArr(messages)];
    var change := KeyChange(Add, None, Some(JObj(map["datalayer" := JObj(map["ai" := JObj(ai)])])));
    assert AiContainer(change.newValue.GetOr(EmptyObj)) == Success(ai);
    assert ListAt(ai, "prompts") == Success(prompts) && ListAt(ai, "messages") == Success(messages);
    assert SetMember(messages[0].fields["parent_id"]) == SetMember(prompts[0].fields["id"]);
    AllAnsweredSilent(target, change, ai);
  }

  /** Worked example: a source update on cell "c1" reports one source change. */
  lemma SourceUpdateExample()
    ensures Classify(ChangeRecord("cells", [Index(0)],
      [("source", KeyChange(Update, Some(JStr("x=1")), Some(JStr("x=2"))))],
      map["id" := JStr("c1")]))
      == Dispatch([CellSourceChanged(JStr("c1"), JStr("x=2"), JStr("x=1"))], None)
  {
    ClassifySingleCellKey(Index(0), "source",
      KeyChange(Update, Some(JStr("x=1")), Some(JStr("x=2"))), map["id" := JStr("c1")]);
  }
}
