/** The agent's side of the shared notebook (`BaseYNotebookAgent`): finding a cell by id,
    writing a reply message into cell or notebook metadata, and keeping exactly one change
    observer registered across document resets. */
module NotebookAgent {
  import opened Json
  import opened NotebookChanges

  /** `AIMessageType`, an integer enumeration stored as the message's "type". */
  datatype AIMessageType = Acknowledge | Suggestion | Explanation {
    function Value(): (n: int)
      ensures 0 <= n <= 2
    {
      match this
      case Acknowledge => 0
      case Suggestion => 1
      case Explanation => 2
    }
  }

  /** The tail of the message `AIMessageType(n)` raises for an integer outside the enumeration. */
  const NotAMessageType := " is not a valid AIMessageType"

  /** `AIMessageType(n)`: the member whose value is `n`; any other integer raises
      `ValueError("<n> is not a valid AIMessageType")`. */
  function MessageTypeOf(n: int): (r: Result<AIMessageType, PyError>)
    ensures r.Success? <==> 0 <= n <= 2
    ensures r.Success? ==> r.value.Value() == n
    ensures r.Failure? ==> r.error == ValueError(IntToString(n) + NotAMessageType)
  {
    if n == 0 then Success(Acknowledge)
    else if n == 1 then Success(Suggestion)
    else if n == 2 then Success(Explanation)
    else Failure(ValueError(IntToString(n) + NotAMessageType))
  }

  /** The error for the first integer past the enumeration. */
  lemma MessageTypeRejectedAbove()
    ensures MessageTypeOf(3) == Failure(ValueError("3" + NotAMessageType))
  {
    assert IntToString(3) == "3";
  }

  /** The error for a negative stored type names it with its sign. */
  lemma MessageTypeRejectedBelow()
    ensures MessageTypeOf(-1) == Failure(ValueError("-1" + NotAMessageType))
  {
    assert IntToString(-1) == "-" + Digits(1) == "-1";
  }

  /** Every message type survives the trip through its stored integer. */
  lemma MessageTypeRoundTrip(t: AIMessageType)
    ensures MessageTypeOf(t.Value()) == Success(t)
  {
  }

  /** `{"parent_id": prompt["id"], "message": message, "type": message_type}` */
  function Reply(parentId: Json, message: string, t: AIMessageType): Json {
    JObj(map["parent_id" := parentId, "message" := JStr(message), "type" := JInt(t.Value())])
  }

  const EmptyAi: Json := JObj(map["prompts" := JArr([]), "messages" := JArr([])])
  const FreshDatalayer: Json := JObj(map["ai" := EmptyAi])
  /** The metadata a cell without metadata receives before the reply is written. */
  const ScaffoldMetadata: JsonMap := map["datalayer" := FreshDatalayer]

  // ---------------------------------------------------------------------------
  // Views of a metadata map
  // ---------------------------------------------------------------------------

  /** The `datalayer.ai` mapping, when both levels are mappings. */
  function AiOf(metadata: JsonMap): Option<JsonMap> {
    if "datalayer" in metadata && metadata["datalayer"].JObj?
       && "ai" in metadata["datalayer"].fields && metadata["datalayer"].fields["ai"].JObj?
    then Some(metadata["datalayer"].fields["ai"].fields)
    else None
  }

  /** The `datalayer.ai.messages` list, or [] when there is none. */
  function MessagesOf(metadata: JsonMap): seq<Json> {
    match AiOf(metadata)
    case Some(ai) => if "messages" in ai && ai["messages"].JArr? then ai["messages"].items else []
    case None => []
  }

  // ---------------------------------------------------------------------------
  // set_message
  // ---------------------------------------------------------------------------

  /** The `datalayer` value `set_message` has in place after its three scaffolding branches:
      a missing `datalayer`, or one without `ai`, is replaced by a fresh container; an `ai`
      without `messages` is replaced by `{messages: []}`. Python's `in` is applied to whatever
      value is there, and indexing a string or list by a key raises TypeError. */
  function Scaffolded(metadata: JsonMap): (r: Result<Json, PyError>)
    ensures r.Success? ==>
      r.value.JObj? && "ai" in r.value.fields && r.value.fields["ai"].JObj?
      && "messages" in r.value.fields["ai"].fields
  {
    if "datalayer" !in metadata then Success(FreshDatalayer)
    else
      var datalayer := metadata["datalayer"];
      var hasAi :- Contains(datalayer, "ai");
      if !hasAi then Success(FreshDatalayer)
      else if !datalayer.JObj? then Failure(TypeError)
      else
        var ai := datalayer.fields["ai"];
        var hasMessages :- Contains(ai, "messages");
        if !hasMessages then Success(JObj(datalayer.fields["ai" := JObj(map["messages" := JArr([])])]))
        else if !ai.JObj? then Failure(TypeError)
        else Success(datalayer)
  }

  /** The metadata map after `set_message(metadata, message)`, or the exception it raises
      (in which case nothing has been written). */
  function WithMessage(metadata: JsonMap, message: Json): (r: Result<JsonMap, PyError>)
    ensures r.Success? ==> MessagesOf(r.value) == MessagesOf(metadata) + [message]
    ensures r.Success? ==> "datalayer" in r.value && r.value - {"datalayer"} == metadata - {"datalayer"}
  {
    var datalayer :- Scaffolded(metadata);
    var ai := datalayer.fields["ai"];
    var messages := ai.fields["messages"];
    if !messages.JArr? then Failure(AttributeError)
    else
      Success(metadata["datalayer" := JObj(datalayer.fields["ai" := JObj(ai.fields["messages" := JArr(messages.items + [message])])])])
  }

  /** `set_message`, step by step on a local copy of the metadata map. */
  method SetMessage(metadata: JsonMap, message: Json) returns (r: Result<JsonMap, PyError>)
    ensures r == WithMessage(metadata, message)
    ensures r.Success? ==> MessagesOf(r.value) == MessagesOf(metadata) + [message]
  {
    var m := metadata;
    if "datalayer" !in m {
      m := m["datalayer" := FreshDatalayer];
    } else {
      var hasAi := Contains(m["datalayer"], "ai");
      if hasAi.Failure? {
        return Failure(hasAi.error);
      }
      if !hasAi.value {
        m := m["datalayer" := FreshDatalayer];
      } else {
        var datalayer := m["datalayer"];
        if !datalayer.JObj? {
          return Failure(TypeError);
        }
        var hasMessages := Contains(datalayer.fields["ai"], "messages");
        if hasMessages.Failure? {
          return Failure(hasMessages.error);
        }
        if !hasMessages.value {
          m := m["datalayer" := JObj(datalayer.fields["ai" := JObj(map["messages" := JArr([])])])];
        } else if !datalayer.fields["ai"].JObj? {
          return Failure(TypeError);
        }
      }
    }
    assert m == metadata["datalayer" := m["datalayer"]];
    assert Scaffolded(metadata) == Success(m["datalayer"]);
    // metadata["datalayer"]["ai"]["messages"].append(message)
    var datalayer := m["datalayer"];
    var ai := datalayer.fields["ai"];
    var messages := ai.fields["messages"];
    if !messages.JArr? {
      return Failure(AttributeError);
    }
    var appended := JObj(datalayer.fields["ai" := JObj(ai.fields["messages" := JArr(messages.items + [message])])]);
    assert m["datalayer" := appended] == metadata["datalayer" := appended];
    m := m["datalayer" := appended];
    // metadata["datalayer"] = metadata["datalayer"].copy(): the same content, re-assigned
    assert m["datalayer" := m["datalayer"]] == m;
    m := m["datalayer" := m["datalayer"]];
    return Success(m);
  }

  /** The `datalayer` value left by a reply written into a fresh container. */
  function FreshContainerWith(message: Json): Json {
    JObj(map["ai" := JObj(map["prompts" := JArr([]), "messages" := JArr([message])])])
  }

  /** The scaffolding rules of `set_message`, case by case: a missing `datalayer`, or one
      without `ai`, is replaced by a fresh container (dropping the keys beside `ai`); an `ai`
      without `messages` is replaced by one holding only the reply (dropping its prompts); an
      existing messages list is extended, every other key kept. */
  lemma WithMessageScaffolding(metadata: JsonMap, message: Json)
    ensures "datalayer" !in metadata ==>
      WithMessage(metadata, message) == Success(metadata["datalayer" := FreshContainerWith(message)])
    ensures "datalayer" in metadata && metadata["datalayer"].JObj? && "ai" !in metadata["datalayer"].fields ==>
      WithMessage(metadata, message) == Success(metadata["datalayer" := FreshContainerWith(message)])
    ensures AiOf(metadata).Some? && "messages" !in AiOf(metadata).value ==>
      WithMessage(metadata, message) ==
        Success(metadata["datalayer" := JObj(metadata["datalayer"].fields["ai" := JObj(map["messages" := JArr([message])])])])
    ensures AiOf(metadata).Some? && "messages" in AiOf(metadata).value && AiOf(metadata).value["messages"].JArr? ==>
      var ai := AiOf(metadata).value;
      WithMessage(metadata, message) ==
        Success(metadata["datalayer" := JObj(metadata["datalayer"].fields["ai" :=
          JObj(ai["messages" := JArr(ai["messages"].items + [message])])])])
  {
    if Scaffolded(metadata) == Success(FreshDatalayer) {
      FreshWrite(metadata, message);
    }
    if AiOf(metadata).Some? && "messages" !in AiOf(metadata).value {
      var dl := metadata["datalayer"].fields;
      var emptyAi := JObj(map["messages" := JArr([])]);
      assert Scaffolded(metadata) == Success(JObj(dl["ai" := emptyAi]));
      var empty: seq<Json> := [];
      assert empty + [message] == [message];
      var written := JObj(map["messages" := JArr([message])]);
      assert emptyAi.fields["messages" := JArr(empty + [message])] == written.fields;
      assert dl["ai" := emptyAi]["ai" := written] == dl["ai" := written];
    }
  }

  lemma FreshWrite(metadata: JsonMap, message: Json)
    requires Scaffolded(metadata) == Success(FreshDatalayer)
    ensures WithMessage(metadata, message) == Success(metadata["datalayer" := FreshContainerWith(message)])
  {
    var empty: seq<Json> := [];
    assert empty + [message] == [message];
    var ai := EmptyAi.fields["messages" := JArr([message])];
    assert ai == map["prompts" := JArr([]), "messages" := JArr([message])];
    assert FreshDatalayer.fields["ai" := JObj(ai)] == FreshContainerWith(message).fields;
  }

  /** Python's `{item[key] for item in items + [x]}`: the set of `items`, plus `x[key]`. */
  lemma {:induction false} KeySetAppend(items: seq<Json>, x: Json, key: string)
    requires KeySet(items, key).Success? && HasHashableKey(x, key)
    ensures KeySet(items + [x], key) == Success(KeySet(items, key).value + {SetMember(x.fields[key])})
  {
    var all := items + [x];
    assert forall i | 0 <= i < |items| :: all[i] == items[i];
    assert all[|items|] == x;
    assert forall i | 0 <= i < |all| :: HasHashableKey(all[i], key);
    var s := KeySet(all, key).value;
    var t := KeySet(items, key).value + {SetMember(x.fields[key])};
    forall y | y in s ensures y in t {
      var i :| 0 <= i < |all| && HasHashableKey(all[i], key) && SetMember(all[i].fields[key]) == y;
      if i < |items| {
        assert items[i] == all[i];
      }
    }
    assert s == t;
    forall y | y in t ensures y in s {
      if y != SetMember(x.fields[key]) {
        var i :| 0 <= i < |items| && HasHashableKey(items[i], key) && SetMember(items[i].fields[key]) == y;
        assert all[i] == items[i];
      }
    }
  }

  /** The AI container of a metadata map that `WithMessage` produced: a mapping whose
      messages list ends with the reply. */
  lemma WrittenContainer(metadata: JsonMap, message: Json, updated: JsonMap)
    requires WithMessage(metadata, message) == Success(updated)
    ensures AiOf(updated).Some?
    ensures AiContainer(JObj(updated)) == Success(AiOf(updated).value)
    ensures "messages" in AiOf(updated).value
    ensures AiOf(updated).value["messages"] == JArr(MessagesOf(metadata) + [message])
  {
  }

  /** Loop prevention. Once a reply to prompt id `pid` is written, reading the metadata back
      no longer counts `pid` as unanswered. */
  lemma ReplyAnswersPrompt(metadata: JsonMap, pid: Json, text: string, t: AIMessageType, updated: JsonMap)
    requires Hashable(pid)
    requires WithMessage(metadata, Reply(pid, text, t)) == Success(updated)
    ensures PendingPrompts(JObj(updated)).Success? ==> SetMember(pid) !in PendingPrompts(JObj(updated)).value
  {
    var reply := Reply(pid, text, t);
    WrittenContainer(metadata, reply, updated);
    var ai := AiOf(updated).value;
    var messages := MessagesOf(metadata) + [reply];
    assert ListAt(ai, "messages") == Success(messages);
    if PendingPrompts(JObj(updated)).Success? {
      assert Unanswered(ai).Success?;
      assert messages[|messages| - 1] == reply && HasHashableKey(reply, "parent_id");
      assert SetMember(pid) in KeySet(messages, "parent_id").value;
    }
  }

  /** The unanswered set only shrinks when a reply is written: it loses `pid` and, when the
      write replaced the container, everything. */
  lemma ReplyShrinksPending(metadata: JsonMap, pid: Json, text: string, t: AIMessageType, updated: JsonMap)
    requires Hashable(pid)
    requires WithMessage(metadata, Reply(pid, text, t)) == Success(updated)
    requires PendingPrompts(JObj(metadata)).Success?
    ensures PendingPrompts(JObj(updated)).Success?
    ensures PendingPrompts(JObj(updated)).value <= PendingPrompts(JObj(metadata)).value - {SetMember(pid)}
  {
    var reply := Reply(pid, text, t);
    WrittenContainer(metadata, reply, updated);
    ReplyAnswersPrompt(metadata, pid, text, t, updated);
    if AiOf(metadata).Some? && "messages" in AiOf(metadata).value && AiOf(metadata).value["messages"].JArr? {
      ExtendedPending(metadata, reply, updated);
    } else {
      ReplacedPending(metadata, reply, updated);
    }
  }

  lemma ExtendedPending(metadata: JsonMap, reply: Json, updated: JsonMap)
    requires HasHashableKey(reply, "parent_id")
    requires WithMessage(metadata, reply) == Success(updated)
    requires PendingPrompts(JObj(metadata)).Success?
    requires AiOf(metadata).Some? && "messages" in AiOf(metadata).value && AiOf(metadata).value["messages"].JArr?
    ensures PendingPrompts(JObj(updated)) ==
      Success(PendingPrompts(JObj(metadata)).value - {SetMember(reply.fields["parent_id"])})
  {
    var oldAi := AiOf(metadata).value;
    var prior := oldAi["messages"].items;
    assert AiContainer(JObj(metadata)) == Success(oldAi);
    assert ListAt(oldAi, "messages") == Success(prior);
    var prompts := ListAt(oldAi, "prompts").value;
    var promptIds := KeySet(prompts, "id").value;
    var parentIds := KeySet(prior, "parent_id").value;
    assert PendingPrompts(JObj(metadata)).value == promptIds - parentIds;
    WithMessageScaffolding(metadata, reply);
    WrittenContainer(metadata, reply, updated);
    var ai := AiOf(updated).value;
    assert ai == oldAi["messages" := JArr(prior + [reply])];
    assert ListAt(ai, "prompts") == Success(prompts);
    assert ListAt(ai, "messages") == Success(prior + [reply]);
    KeySetAppend(prior, reply, "parent_id");
    assert Unanswered(ai) == Success(promptIds - (parentIds + {SetMember(reply.fields["parent_id"])}));
    assert PendingPrompts(JObj(updated)) == Unanswered(ai);
    assert promptIds - (parentIds + {SetMember(reply.fields["parent_id"])}) == (promptIds - parentIds) - {SetMember(reply.fields["parent_id"])};
  }

  lemma ReplacedPending(metadata: JsonMap, reply: Json, updated: JsonMap)
    requires HasHashableKey(reply, "parent_id")
    requires WithMessage(metadata, reply) == Success(updated)
    requires PendingPrompts(JObj(metadata)).Success?
    requires !(AiOf(metadata).Some? && "messages" in AiOf(metadata).value && AiOf(metadata).value["messages"].JArr?)
    ensures PendingPrompts(JObj(updated)) == Success({})
  {
    WithMessageScaffolding(metadata, reply);
    WrittenContainer(metadata, reply, updated);
    var ai := AiOf(updated).value;
    assert AiContainer(JObj(updated)) == Success(ai);
    if "datalayer" !in metadata || !("ai" in metadata["datalayer"].fields) {
      assert updated == metadata["datalayer" := FreshContainerWith(reply)];
      assert ai == map["prompts" := JArr([]), "messages" := JArr([reply])];
    } else {
      assert AiOf(metadata).Some? && "messages" !in AiOf(metadata).value;
      assert updated == metadata["datalayer" := JObj(metadata["datalayer"].fields["ai" := JObj(map["messages" := JArr([reply])])])];
      assert ai == map["messages" := JArr([reply])];
    }
    assert ListAt(ai, "prompts") == Success([]);
    assert KeySet([], "id") == Success({});
    assert ListAt(ai, "messages") == Success([reply]);
    assert KeySet([reply], "parent_id").Success?;
    assert Unanswered(ai).Success? && Unanswered(ai).value == {};
    assert PendingPrompts(JObj(updated)) == Unanswered(ai);
  }

  /** A reply to the only unanswered prompt silences the metadata echo: re-classifying the
      written metadata as an update of one cell's metadata reports nothing. */
  lemma ReplyToLastPromptSilent(
    metadata: JsonMap, pid: Json, text: string, t: AIMessageType, updated: JsonMap,
    segment: PathSegment, oldValue: Option<Json>, target: JsonMap)
    requires Hashable(pid)
    requires WithMessage(metadata, Reply(pid, text, t)) == Success(updated)
    requires PendingPrompts(JObj(metadata)).Success? && PendingPrompts(JObj(metadata)).value <= {SetMember(pid)}
    ensures Classify(ChangeRecord("cells", [segment],
      [("metadata", KeyChange(Update, oldValue, Some(JObj(updated))))], target)) == Silent
  {
    ReplyShrinksPending(metadata, pid, text, t, updated);
    var change := KeyChange(Update, oldValue, Some(JObj(updated)));
    ClassifySingleCellKey(segment, "metadata", change, target);
    assert PendingPrompts(JObj(updated)).value == {};
  }

  // ---------------------------------------------------------------------------
  // get_cell and update_document
  // ---------------------------------------------------------------------------

  predicate NoMatchBefore(cells: seq<JsonMap>, cellId: string, n: int)
    requires n <= |cells|
  {
    forall j | 0 <= j < n :: "id" in cells[j] && cells[j]["id"] != JStr(cellId)
  }

  /** `get_cell`'s answer, as a position: the first cell whose "id" equals `cellId`, None when
      no cell matches; a cell without "id" met before a match raises KeyError. */
  function CellIndex(cells: seq<JsonMap>, cellId: string): (r: Result<Option<nat>, PyError>)
    ensures r.Success? && r.value.Some? ==>
      var i := r.value.value;
      i < |cells| && "id" in cells[i] && cells[i]["id"] == JStr(cellId) && NoMatchBefore(cells, cellId, i)
    ensures r.Success? && r.value.None? ==> NoMatchBefore(cells, cellId, |cells|)
    ensures r.Failure? ==>
      r.error == KeyError("id")
      && exists j | 0 <= j < |cells| :: "id" !in cells[j] && NoMatchBefore(cells, cellId, j)
    decreases |cells|
  {
    if cells == [] then Success(None)
    else if "id" !in cells[0] then Failure(KeyError("id"))
    else if cells[0]["id"] == JStr(cellId) then Success(Some(0))
    else
      var rest := CellIndex(cells[1..], cellId);
      assert forall j | 1 <= j < |cells| :: cells[j] == cells[1..][j - 1];
      match rest
      case Failure(e) =>
        assert exists j | 0 <= j < |cells[1..]| :: "id" !in cells[1..][j] && NoMatchBefore(cells[1..], cellId, j);
        var j :| 0 <= j < |cells[1..]| && "id" !in cells[1..][j] && NoMatchBefore(cells[1..], cellId, j);
        assert "id" !in cells[j + 1] && NoMatchBefore(cells, cellId, j + 1);
        Failure(e)
      case Success(None) => Success(None)
      case Success(Some(i)) => Success(Some(i + 1))
  }

  /** The reply written into a metadata value that is not a mapping: `in` and item assignment
      on a string, a list or a scalar all end in TypeError before anything is written. */
  function WithMessageIn(container: Json, message: Json): Result<JsonMap, PyError> {
    if !container.JObj? then Failure(TypeError) else WithMessage(container.fields, message)
  }

  /** What `update_document` leaves: the new cells and notebook metadata, or the exception. */
  function UpdatedDocument(
    cells: seq<JsonMap>, metadata: JsonMap,
    prompt: JsonMap, t: AIMessageType, message: string, cellId: string)
    : Result<(seq<JsonMap>, JsonMap), PyError>
  {
    if "id" !in prompt then Failure(KeyError("id"))
    else
      var reply := Reply(prompt["id"], message, t);
      if cellId != "" then
        var found :- CellIndex(cells, cellId);
        if found.None? then Failure(ValueError("Cell [" + cellId + "] not found."))
        else
          var i := found.value;
          var cellMetadata := if "metadata" in cells[i] then cells[i]["metadata"] else JObj(ScaffoldMetadata);
          var written :- WithMessageIn(cellMetadata, reply);
          Success((cells[i := cells[i]["metadata" := JObj(written)]], metadata))
      else
        var written :- WithMessage(metadata, reply);
        Success((cells, written))
  }

  /** Where `update_document` writes, path by path: a prompt without "id" raises KeyError
      before anything else; an empty cell id writes to the notebook metadata; otherwise the
      first cell with that id receives the reply in its metadata (given fresh metadata if it
      has none) and keeps every other key, a lookup error propagates, and ValueError names the
      id when there is no such cell. */
  lemma UpdateTargets(
    cells: seq<JsonMap>, metadata: JsonMap,
    prompt: JsonMap, t: AIMessageType, message: string, cellId: string)
    ensures "id" !in prompt ==>
      UpdatedDocument(cells, metadata, prompt, t, message, cellId) == Failure(KeyError("id"))
    ensures "id" in prompt && cellId == "" ==>
      var r := UpdatedDocument(cells, metadata, prompt, t, message, cellId);
      (r.Success? <==> WithMessage(metadata, Reply(prompt["id"], message, t)).Success?)
      && (r.Success? ==> r.value.0 == cells && r.value.1 == WithMessage(metadata, Reply(prompt["id"], message, t)).value)
      && (r.Failure? ==> r.error == WithMessage(metadata, Reply(prompt["id"], message, t)).error)
    ensures "id" in prompt && cellId != "" && CellIndex(cells, cellId).Failure? ==>
      UpdatedDocument(cells, metadata, prompt, t, message, cellId) == Failure(CellIndex(cells, cellId).error)
    ensures "id" in prompt && cellId != "" && NoMatchBefore(cells, cellId, |cells|) ==>
      UpdatedDocument(cells, metadata, prompt, t, message, cellId) == Failure(ValueError("Cell [" + cellId + "] not found."))
    ensures "id" in prompt && cellId != "" && CellIndex(cells, cellId) == Success(None) ==>
      UpdatedDocument(cells, metadata, prompt, t, message, cellId) == Failure(ValueError("Cell [" + cellId + "] not found."))
    ensures forall i: nat | "id" in prompt && cellId != "" && CellIndex(cells, cellId) == Success(Some(i)) && "metadata" !in cells[i] ::
      UpdatedDocument(cells, metadata, prompt, t, message, cellId) ==
        Success((cells[i := cells[i]["metadata" := JObj(map["datalayer" := FreshContainerWith(Reply(prompt["id"], message, t))])]], metadata))
    ensures forall i: nat | "id" in prompt && cellId != "" && CellIndex(cells, cellId) == Success(Some(i)) && "metadata" in cells[i] ::
      var w := WithMessageIn(cells[i]["metadata"], Reply(prompt["id"], message, t));
      UpdatedDocument(cells, metadata, prompt, t, message, cellId) ==
        if w.Success? then Success((cells[i := cells[i]["metadata" := JObj(w.value)]], metadata)) else Failure(w.error)
  {
    if "id" in prompt {
      if cellId != "" && NoMatchBefore(cells, cellId, |cells|) {
        match CellIndex(cells, cellId)
        case Success(Some(i)) => assert false;
        case Success(None) =>
        case Failure(_) => assert false;
      }
      ScaffoldWrite(Reply(prompt["id"], message, t));
    }
  }

  /** A reply written into the metadata given to a cell that had none. */
  lemma ScaffoldWrite(reply: Json)
    ensures WithMessage(ScaffoldMetadata, reply) == Success(map["datalayer" := FreshContainerWith(reply)])
  {
    assert Scaffolded(ScaffoldMetadata) == Success(FreshDatalayer);
    FreshWrite(ScaffoldMetadata, reply);
    assert ScaffoldMetadata["datalayer" := FreshContainerWith(reply)] == map["datalayer" := FreshContainerWith(reply)];
  }

  /** Loop prevention at the document level: after a reply to a prompt is written to a cell,
      the other cells and the cell's other keys are unchanged, existing metadata keeps its
      keys beside `datalayer` and gains the reply as its last message, and the cell's
      metadata no longer counts the prompt as unanswered. */
  lemma UpdateAnswersCellPrompt(
    cells: seq<JsonMap>, metadata: JsonMap,
    prompt: JsonMap, t: AIMessageType, message: string, cellId: string, i: nat)
    requires "id" in prompt && Hashable(prompt["id"]) && cellId != ""
    requires UpdatedDocument(cells, metadata, prompt, t, message, cellId).Success?
    requires CellIndex(cells, cellId) == Success(Some(i))
    ensures var newCells := UpdatedDocument(cells, metadata, prompt, t, message, cellId).value.0;
      && |newCells| == |cells|
      && (forall j | 0 <= j < |cells| && j != i :: newCells[j] == cells[j])
      && "metadata" in newCells[i]
      && newCells[i] - {"metadata"} == cells[i] - {"metadata"}
      && ("metadata" in cells[i] ==>
            cells[i]["metadata"].JObj? && newCells[i]["metadata"].JObj?
            && MessagesOf(newCells[i]["metadata"].fields)
               == MessagesOf(cells[i]["metadata"].fields) + [Reply(prompt["id"], message, t)]
            && newCells[i]["metadata"].fields - {"datalayer"} == cells[i]["metadata"].fields - {"datalayer"})
      && (PendingPrompts(newCells[i]["metadata"]).Success? ==>
            SetMember(prompt["id"]) !in PendingPrompts(newCells[i]["metadata"]).value)
  {
    var reply := Reply(prompt["id"], message, t);
    var cellMetadata := if "metadata" in cells[i] then cells[i]["metadata"] else JObj(ScaffoldMetadata);
    var written := WithMessageIn(cellMetadata, reply).value;
    ReplyAnswersPrompt(cellMetadata.fields, prompt["id"], message, t, written);
  }

  // ---------------------------------------------------------------------------
  // The agent
  // ---------------------------------------------------------------------------

  /** The agent's view of its notebook document and of the document's observer slot.
      `generation` numbers the document models the agent has held; `observed` holds the
      generations whose observer slot carries the agent's change callback. */
  class YNotebookAgent {
    var cells: seq<JsonMap>
    var metadata: JsonMap
    var generation: nat
    var observed: set<nat>

    /** The callback is registered at most once, and only on the current document model. */
    ghost predicate Valid()
      reads this
    {
      observed <= {generation}
    }

    constructor (cells: seq<JsonMap>, metadata: JsonMap)
      ensures Valid()
      ensures this.cells == cells && this.metadata == metadata
      ensures generation == 0 && observed == {}
    {
      this.cells := cells;
      this.metadata := metadata;
      generation := 0;
      observed := {};
    }

    /** `_reset_y_model`: unobserve the current document, let the client replace it (its new
        content is a parameter here), then observe the new one. */
    method ResetYModel(newCells: seq<JsonMap>, newMetadata: JsonMap)
      requires Valid()
      modifies this
      ensures Valid()
      ensures generation == old(generation) + 1 && observed == {generation}
      ensures cells == newCells && metadata == newMetadata
    {
      // self._doc.unobserve()
      observed := observed - {generation};
      // super()._reset_y_model(): a new document model, with no observer
      assert observed == {};
      generation := generation + 1;
      cells, metadata := newCells, newMetadata;
      // self._doc.observe(self._on_notebook_changes)
      observed := observed + {generation};
    }

    /** `get_cell`: the position of the first cell whose "id" is `cellId`. */
    method GetCell(cellId: string) returns (r: Result<Option<nat>, PyError>)
      ensures r == CellIndex(cells, cellId)
    {
      var index := 0;
      while index < |cells|
        invariant 0 <= index <= |cells|
        invariant NoMatchBefore(cells, cellId, index)
      {
        if "id" !in cells[index] {
          return Failure(KeyError("id"));
        }
        if cells[index]["id"] == JStr(cellId) {
          return Success(Some(index));
        }
        index := index + 1;
      }
      return Success(None);
    }

    /** `update_document(prompt, message_type, message, cell_id)`. */
    method UpdateDocument(prompt: JsonMap, messageType: AIMessageType, message: string, cellId: string)
      returns (outcome: Result<(), PyError>)
      requires Valid()
      modifies this
      ensures Valid() && generation == old(generation) && observed == old(observed)
      ensures match UpdatedDocument(old(cells), old(metadata), prompt, messageType, message, cellId)
        case Success(doc) => outcome.Success? && cells == doc.0 && metadata == doc.1
        case Failure(e) => outcome == Failure(e) && cells == old(cells) && metadata == old(metadata)
    {
      if "id" !in prompt {
        return Failure(KeyError("id"));
      }
      var reply := Reply(prompt["id"], message, messageType);
      if cellId != "" {
        var found := GetCell(cellId);
        if found.Failure? {
          return Failure(found.error);
        }
        if found.value.None? {
          return Failure(ValueError("Cell [" + cellId + "] not found."));
        }
        var i := found.value.value;
        ghost var original := cells;
        if "metadata" !in cells[i] {
          ScaffoldWrite(reply);
          cells := cells[i := cells[i]["metadata" := JObj(ScaffoldMetadata)]];
        }
        var cellMetadata := cells[i]["metadata"];
        assert cellMetadata == if "metadata" in original[i] then original[i]["metadata"] else JObj(ScaffoldMetadata);
        if !cellMetadata.JObj? {
          return Failure(TypeError);
        }
        var written := SetMessage(cellMetadata.fields, reply);
        if written.Failure? {
          return Failure(written.error);
        }
        assert cells[i]["metadata" := JObj(written.value)] == original[i]["metadata" := JObj(written.value)];
        cells := cells[i := cells[i]["metadata" := JObj(written.value)]];
        assert cells == original[i := original[i]["metadata" := JObj(written.value)]];
      } else {
        var written := SetMessage(metadata, reply);
        if written.Failure? {
          return Failure(written.error);
        }
        metadata := written.value;
      }
      return Success(());
    }
  }
}
