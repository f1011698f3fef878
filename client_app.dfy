/** The state updaters of the React component in src/App.js: the task
    list (`addTask`, `toggleTask`), the chat list as `sendMessage` and the
    socket's `message` listener change it, and the `/ai ` test on the
    input. Each updater is a function from the old state to the new one. */
module ClientApp {
  import opened Seqs
  import opened Text

  // ---------------------------------------------------------------------
  // Tasks

  datatype Task = Task(id: int, text: string, done: bool)

  /** The `tasks` list and the `taskInput` box. */
  datatype TaskForm = TaskForm(tasks: seq<Task>, taskInput: string)

  /** `addTask`, with `Date.now()` as `now`: a blank input changes
      nothing; otherwise one open task with the input's text goes at the
      end and the box is cleared. */
  function AddTask(form: TaskForm, now: int): (r: TaskForm)
    ensures Blank(form.taskInput) ==> r == form
    ensures !Blank(form.taskInput) ==>
      r.tasks == form.tasks + [Task(now, form.taskInput, false)] && r.taskInput == ""
  {
    TrimEmptyIffBlank(form.taskInput);
    if Trim(form.taskInput) == [] then form
    else TaskForm(form.tasks + [Task(now, form.taskInput, false)], "")
  }

  /** The `map` callback of `toggleTask`. */
  function Toggled(t: Task, id: int): Task
  {
    if t.id == id then t.(done := !t.done) else t
  }

  /** `toggleTask(id)`: every task with that id changes its `done` flag;
      ids, texts, order and length stay. */
  function ToggleTask(tasks: seq<Task>, id: int): (r: seq<Task>)
    ensures |r| == |tasks|
    ensures forall i :: 0 <= i < |tasks| ==> r[i].id == tasks[i].id && r[i].text == tasks[i].text
    ensures forall i :: 0 <= i < |tasks| ==> (r[i].done <==> (tasks[i].done != (tasks[i].id == id)))
  {
    if |tasks| == 0 then []
    else ToggleTask(tasks[..|tasks| - 1], id) + [Toggled(tasks[|tasks| - 1], id)]
  }

  /** Tasks with another id come through unchanged. */
  lemma ToggleLeavesOthers(tasks: seq<Task>, id: int, i: nat)
    requires i < |tasks| && tasks[i].id != id
    ensures ToggleTask(tasks, id)[i] == tasks[i]
  {
  }

  /** Toggling the same id twice restores the list. */
  lemma {:induction false} ToggleTwice(tasks: seq<Task>, id: int)
    ensures ToggleTask(ToggleTask(tasks, id), id) == tasks
  {
    var once := ToggleTask(tasks, id);
    var twice := ToggleTask(once, id);
    forall i | 0 <= i < |tasks|
      ensures twice[i] == tasks[i]
    {
      assert twice[i].done == tasks[i].done;
    }
  }

  // ---------------------------------------------------------------------
  // Chat messages

  /** A chat message as the component builds it; `sender` is
      `publicKey?.toString()`, missing without a wallet. */
  datatype ChatMessage = ChatMessage(id: int, sender: Option<string>, content: string, timestamp: int, kind: string)

  /** The `messages` list and the `input` box. */
  datatype ChatView = ChatView(messages: seq<ChatMessage>, input: string)

  /** What `sendMessage` leads to: the new view, the message emitted on
      the socket (when there is one) and the query posted to the AI
      endpoint (when the input is an AI command). */
  datatype Outgoing = Outgoing(view: ChatView, emitted: Option<ChatMessage>, aiQuery: Option<string>)

  /** `input.toLowerCase().startsWith('/ai ')`: any case. */
  predicate AsksAi(input: string)
  {
    StartsWith(Lower(input), "/ai ")
  }

  /** The synchronous part of `sendMessage`, with `Date.now()` as `now`
      and `connected` for a non-null socket: a blank input does nothing;
      otherwise the user's message is appended and emitted, and an AI
      command posts the input with its first lower-case `/ai ` removed.
      The box is cleared at once for a plain message; for an AI command it
      keeps its text until the request settles (`ReceiveAiAnswer`). */
  function SendMessage(view: ChatView, me: Option<string>, now: int, connected: bool): (r: Outgoing)
    ensures Blank(view.input) ==> r == Outgoing(view, None, None)
    ensures !Blank(view.input) ==>
      var m := ChatMessage(now, me, view.input, now, "user");
      && r.view.messages == view.messages + [m]
      && (r.emitted.Some? <==> connected)
      && (connected ==> r.emitted == Some(m))
    ensures !Blank(view.input) ==> r.view.input == if AsksAi(view.input) then view.input else ""
    ensures r.aiQuery.Some? <==> !Blank(view.input) && AsksAi(view.input)
    ensures r.aiQuery.Some? ==> r.aiQuery.value == ReplaceFirst(view.input, "/ai ", "")
  {
    TrimEmptyIffBlank(view.input);
    if Trim(view.input) == [] then Outgoing(view, None, None)
    else
      var m := ChatMessage(now, me, view.input, now, "user");
      if AsksAi(view.input) then
        Outgoing(ChatView(view.messages + [m], view.input),
                 if connected then Some(m) else None,
                 Some(ReplaceFirst(view.input, "/ai ", "")))
      else
        Outgoing(ChatView(view.messages + [m], ""), if connected then Some(m) else None, None)
  }

  /** A lower-case command loses exactly its prefix. */
  lemma LowerCaseCommandQuery(view: ChatView, me: Option<string>, now: int, connected: bool)
    requires StartsWith(view.input, "/ai ")
    ensures SendMessage(view, me, now, connected).aiQuery == Some(view.input[4..])
  {
    assert view.input[0] == '/';
    assert !IsSpace(view.input[0]);
    assert !Blank(view.input);
    assert Lower("/ai ") == "/ai ";
    LowerPrefix(view.input, "/ai ");
    assert AsksAi(view.input);
    assert ReplaceFirst(view.input, "/ai ", "") == view.input[4..];
  }

  /** A command whose first lower-case `/ai ` is not at the front (as in
      "/AI x /ai y") loses that later occurrence and keeps its own prefix. */
  lemma CommandCutsFirstLowerPrefix(view: ChatView, me: Option<string>, now: int, connected: bool, k: nat)
    requires !Blank(view.input) && AsksAi(view.input)
    requires OccursAt(view.input, "/ai ", k)
    requires forall j :: 0 <= j < k ==> !OccursAt(view.input, "/ai ", j)
    ensures SendMessage(view, me, now, connected).aiQuery == Some(view.input[..k] + view.input[k + 4..])
  {
    ReplaceAtFirst(view.input, "/ai ", "", k);
    assert view.input[..k] + "" == view.input[..k];
  }

  /** The command test ignores case but the prefix removal does not: an
      upper- or mixed-case command without a lower-case `/ai ` anywhere is
      posted whole, prefix included. */
  lemma MixedCaseCommandKeepsPrefix(view: ChatView, me: Option<string>, now: int, connected: bool)
    requires !Blank(view.input) && AsksAi(view.input) && !Contains(view.input, "/ai ")
    ensures SendMessage(view, me, now, connected).aiQuery == Some(view.input)
  {
    ReplaceAbsent(view.input, "/ai ", "");
  }

  /** "/AI hello" is sent to the AI endpoint as "/AI hello". */
  lemma UpperCaseCommandExample()
    ensures SendMessage(ChatView([], "/AI hello"), None, 0, true).aiQuery == Some("/AI hello")
  {
    var s := "/AI hello";
    assert !IsSpace(s[0]);
    assert Lower(s)[..4] == "/ai ";
    NoLowerAiCommand(s);
    MixedCaseCommandKeepsPrefix(ChatView([], s), None, 0, true);
  }

  /** "/AI hello" holds no lower-case "/ai ". */
  lemma NoLowerAiCommand(s: string)
    requires s == "/AI hello"
    ensures !Contains(s, "/ai ")
  {
    if Contains(s, "/ai ") {
      var i := ContainsOccurrence(s, "/ai ");
      NotAtAnyIndex(s, i);
      assert false;
    }
  }

  /** Its only '/' is at index 0, followed by 'A'. */
  lemma NotAtAnyIndex(s: string, i: int)
    requires s == "/AI hello" && 0 <= i <= |s| - 4
    ensures s[i..i + 4] != "/ai "
  {
    if i == 0 {
      assert s[i..i + 4][1] == 'A';
    } else {
      assert s[i..i + 4][0] == s[i] != '/';
    }
  }

  /** A string that starts with an all-lower-case prefix still starts
      with it after lower-casing. */
  lemma LowerPrefix(s: string, p: string)
    requires StartsWith(s, p) && Lower(p) == p
    ensures StartsWith(Lower(s), p)
  {
    assert Lower(s)[..|p|] == Lower(p);
  }

  /** The rest of `sendMessage` once the AI request settles, with
      `Date.now()` as `now` and the view as it is by then: a failed request
      (the `catch`) adds nothing; otherwise the answer is appended as an
      `AI_AGENT` message with id `now + 1` and emitted when there is a
      socket. Either way the box is cleared, whatever was typed meanwhile. */
  function ReceiveAiAnswer(view: ChatView, response: Option<string>, now: int, connected: bool): (r: (ChatView, Option<ChatMessage>))
    ensures r.0.input == ""
    ensures response.None? ==> r.0.messages == view.messages && r.1 == None
    ensures response.Some? ==>
      var m := ChatMessage(now + 1, Some("AI_AGENT"), response.value, now, "ai");
      r.0.messages == view.messages + [m] && (r.1.Some? <==> connected) && (connected ==> r.1 == Some(m))
  {
    if response.None? then (ChatView(view.messages, ""), None)
    else
      var m := ChatMessage(now + 1, Some("AI_AGENT"), response.value, now, "ai");
      (ChatView(view.messages + [m], ""), if connected then Some(m) else None)
  }

  /** The socket's `message` payload; `message` is absent when the event
      carries none. */
  datatype Incoming = Incoming(message: Option<ChatMessage>)

  /** The `message` listener: appends the payload's message unless there
      is none or it comes from this wallet. */
  function OnIncoming(messages: seq<ChatMessage>, data: Incoming, me: Option<string>): (r: seq<ChatMessage>)
    ensures |messages| <= |r| <= |messages| + 1 && r[..|messages|] == messages
    ensures |r| == |messages| + 1 <==> data.message.Some? && data.message.value.sender != me
    ensures |r| == |messages| + 1 ==> r[|messages|] == data.message.value
  {
    if data.message.Some? && data.message.value.sender != me then messages + [data.message.value]
    else messages
  }

  /** The server sends every message back to every socket, the sender's
      included; the sender filter keeps a sent message from appearing
      twice in the sender's own list. */
  lemma SentMessageNotEchoed(view: ChatView, me: Option<string>, now: int)
    requires !Blank(view.input)
    ensures var out := SendMessage(view, me, now, true);
      OnIncoming(out.view.messages, Incoming(out.emitted), me) == out.view.messages
  {
  }

  /** The filter tests only the sender, and the AI answer's sender is
      `AI_AGENT`, not the wallet: when the server sends the emitted
      answer back, the asker appends it a second time. */
  lemma AiAnswerEchoedBack(view: ChatView, a: string, now: int, me: Option<string>)
    requires me != Some("AI_AGENT")
    ensures var r := ReceiveAiAnswer(view, Some(a), now, true);
      && r.1.Some?
      && OnIncoming(r.0.messages, Incoming(r.1), me) == r.0.messages + [r.1.value]
      && r.1.value == r.0.messages[|r.0.messages| - 1]
  {
  }
}
