/** The chat page: the composer, the transcript with its mocked reply generator, message
    editing, feedback, regeneration and verification, the one-shot handoff it consumes on
    mount, and its tool dialogs. Every pending `setTimeout` callback is an explicit
    `Timer`; any pending one may fire next. */
module ChatApp {
  import opened Common
  import opened Text
  import opened Attachments
  import opened Transcript
  import opened Tools
  import opened Handoff

  /** A pending callback of the mocked generator. */
  datatype Timer =
    | ComposeStage(kind: ReplyKind)   // 1000 ms after a reply starts: the third thinking step
    | ReplyStage(kind: ReplyKind)     // 1500 ms later: the reply is appended
    | EditKickoff                     // 500 ms after an edit is saved: `triggerAIResponse`
    | RegenerateDone(id: string)      // 1500 ms after `handleRegenerate`
    | VerifyDone(id: string)          // 2000 ms after `handleVerifyAnswer`

  /** The chat page's own state (attachments and tools are kept apart). */
  datatype Chat = Chat(
    input: string,
    messages: seq<Message>,
    editingMessageId: Option<string>,
    editInput: string,
    isGenerating: bool,
    thinkingSteps: seq<string>,
    isVerifying: Option<string>,
    timers: seq<Timer>)

  const Initial: Chat := Chat("", [], None, "", false, [], None, [])

  function Without(ts: seq<Timer>, i: nat): (r: seq<Timer>)
    requires i < |ts|
    ensures |r| == |ts| - 1
  {
    ts[..i] + ts[i + 1..]
  }

  /** Removing the timer just scheduled restores the previous list. */
  lemma WithoutLast(ts: seq<Timer>, t: Timer)
    ensures Without(ts + [t], |ts|) == ts
  {
    assert (ts + [t])[..|ts|] == ts;
  }

  // ---------------------------------------------------------------------------
  // Transitions

  /** `setIsGenerating(true)`, the first two thinking steps, and the first stage scheduled. */
  function StartReply(c: Chat, kind: ReplyKind): Chat {
    c.(isGenerating := true, thinkingSteps := InitialSteps, timers := c.timers + [ComposeStage(kind)])
  }

  /** `handleUpdateMessage` saving `content` as the edited text. */
  function SavedWith(c: Chat, content: string): Chat {
    if !Truthy(c.editingMessageId) || !HasMessage(c.messages, c.editingMessageId.value) then c
    else c.(messages := EditTruncate(c.messages, c.editingMessageId.value, content),
            editingMessageId := None, editInput := "", timers := c.timers + [EditKickoff])
  }

  /** `handleUpdateMessage` as written: it saves `editInput`, which only the edit buttons
      write, with the message's current text. */
  function SavedAsWritten(c: Chat): Chat {
    SavedWith(c, c.editInput)
  }

  /** `handleUpdateMessage` saving the text typed in the composer. */
  function Saved(c: Chat): Chat {
    SavedWith(c, c.input)
  }

  /** `handleSend`; `items` is the attachment list. An edit in progress is saved instead. */
  function Sent(c: Chat, items: seq<Item>, userId: string): Chat {
    if Truthy(c.editingMessageId) then Saved(c)
    else if !ShouldSend(c.input, items) then c
    else StartReply(c.(messages := c.messages + [UserMessage(userId, c.input, items)], input := ""), SendReply)
  }

  /** The pencil buttons of the user message at `k`; the one shown for a message with files
      and no text also copies the text into the composer. */
  function EditStarted(c: Chat, k: nat): Chat
    requires k < |c.messages|
  {
    var m := c.messages[k];
    var c' := c.(editingMessageId := Some(m.id), editInput := m.content);
    if m.content == "" && |m.files| > 0 then c'.(input := m.content) else c'
  }

  /** Timer `i` fires; `aiId` is the id a reply created now gets. */
  function Fired(c: Chat, i: nat, aiId: string): Chat
    requires i < |c.timers|
  {
    var c' := c.(timers := Without(c.timers, i));
    match c.timers[i]
    case ComposeStage(kind) => c'.(thinkingSteps := FinalSteps, timers := c'.timers + [ReplyStage(kind)])
    case ReplyStage(kind) => c'.(messages := c'.messages + [AiReply(aiId, kind)], isGenerating := false, thinkingSteps := [])
    case EditKickoff => StartReply(c', EditReply)
    case RegenerateDone(id) => c'.(messages := MapWhere(c'.messages, id, FinishRegenerate))
    case VerifyDone(id) => c'.(messages := MapWhere(c'.messages, id, FinishVerify), isVerifying := None)
  }

  /** `handleRegenerate`: the placeholder now, the new text when its timer fires. */
  function Regenerating(c: Chat, id: string): Chat {
    c.(messages := StartRegenerate(c.messages, id), timers := c.timers + [RegenerateDone(id)])
  }

  /** `handleVerifyAnswer`: the spinner now, the segments and sources when its timer fires. */
  function Verifying(c: Chat, id: string): Chat {
    c.(isVerifying := Some(id), timers := c.timers + [VerifyDone(id)])
  }

  /** `toggleThinking`, `handleLike` and `handleDislike`. */
  function Touched(c: Chat, id: string, u: Update): Chat
    requires u in {Like, Dislike, ToggleThinking}
  {
    c.(messages := MapWhere(c.messages, id, u))
  }

  /** The mount effect's effect on the transcript, given the stored handoff. */
  function Mounted(c: Chat, saved: Option<Handoff>, userId: string, aiId: string): Chat {
    if saved.Some? && OpensChat(saved.value) then c.(messages := OpeningMessages(saved.value, userId, aiId)) else c
  }

  // ---------------------------------------------------------------------------
  // Properties

  /** A send with nothing to send and no edit in progress changes nothing; a real send
      appends exactly one user message with the composer's text and the attachments,
      clears the composer and starts the generator. */
  lemma {:induction false} SendRules(c: Chat, items: seq<Item>, userId: string)
    ensures !Truthy(c.editingMessageId) && !ShouldSend(c.input, items) ==> Sent(c, items, userId) == c
    ensures !Truthy(c.editingMessageId) && ShouldSend(c.input, items) ==>
      var r := Sent(c, items, userId);
      && r.messages == c.messages + [UserMessage(userId, c.input, items)]
      && r.input == "" && r.isGenerating && r.thinkingSteps == InitialSteps
      && r.timers == c.timers + [ComposeStage(SendReply)]
      && r.editingMessageId == c.editingMessageId && r.isVerifying == c.isVerifying
  {
  }

  /** A send followed by the generator's two stages leaves the user message and the
      fixed reply at the end of the transcript, the generator idle, and no extra timer. */
  lemma {:induction false} SendThenReply(c: Chat, items: seq<Item>, userId: string, aiId: string)
    requires !Truthy(c.editingMessageId) && ShouldSend(c.input, items)
    ensures var s1 := Sent(c, items, userId);
      var n := |c.timers|;
      && n < |s1.timers| && s1.timers[n] == ComposeStage(SendReply)
      && var s2 := Fired(s1, n, aiId);
      && s2.thinkingSteps == FinalSteps && s2.isGenerating
      && n < |s2.timers| && s2.timers[n] == ReplyStage(SendReply)
      && var s3 := Fired(s2, n, aiId);
      && s3.messages == c.messages + [UserMessage(userId, c.input, items), AiReply(aiId, SendReply)]
      && s3.input == "" && !s3.isGenerating && s3.thinkingSteps == [] && s3.timers == c.timers
  {
    var s1 := Sent(c, items, userId);
    var n := |c.timers|;
    assert s1.timers == c.timers + [ComposeStage(SendReply)];
    assert Without(s1.timers, n) == c.timers;
    var s2 := Fired(s1, n, aiId);
    assert s2.timers == c.timers + [ReplyStage(SendReply)];
    assert Without(s2.timers, n) == c.timers;
  }

  /** Saving an edit is a no-op unless an edit is in progress on a message that still
      exists; in particular a vanished message leaves the edit in progress. */
  lemma {:induction false} UpdateRules(c: Chat)
    ensures !Truthy(c.editingMessageId) ==> Saved(c) == c
    ensures Truthy(c.editingMessageId) && !HasMessage(c.messages, c.editingMessageId.value) ==>
      Saved(c) == c && Saved(c).editingMessageId == c.editingMessageId
    ensures Truthy(c.editingMessageId) && HasMessage(c.messages, c.editingMessageId.value) ==>
      var r := Saved(c);
      var k := IndexOfMessage(c.messages, c.editingMessageId.value);
      && |r.messages| == k + 1 && r.messages[..k] == c.messages[..k]
      && r.messages[k] == c.messages[k].(content := c.input)
      && r.editingMessageId.None? && r.editInput == "" && r.timers == c.timers + [EditKickoff]
  {
  }

  /** A saved edit followed by the generator's three stages leaves the truncated
      transcript with the edited message last but one and the fixed edit reply last. */
  lemma {:induction false} EditThenReply(c: Chat, aiId: string)
    requires Truthy(c.editingMessageId) && HasMessage(c.messages, c.editingMessageId.value)
    ensures var s1 := Saved(c);
      var n := |c.timers|;
      && n < |s1.timers| && s1.timers[n] == EditKickoff
      && var s2 := Fired(s1, n, aiId);
      && n < |s2.timers| && s2.timers[n] == ComposeStage(EditReply) && s2.isGenerating
      && var s3 := Fired(s2, n, aiId);
      && n < |s3.timers| && s3.timers[n] == ReplyStage(EditReply)
      && var s4 := Fired(s3, n, aiId);
      && s4.messages == EditTruncate(c.messages, c.editingMessageId.value, c.input) + [AiReply(aiId, EditReply)]
      && s4.editingMessageId.None? && !s4.isGenerating && s4.thinkingSteps == [] && s4.timers == c.timers
  {
    var n := |c.timers|;
    var s1 := Saved(c);
    assert s1.timers == c.timers + [EditKickoff];
    assert Without(s1.timers, n) == c.timers;
    var s2 := Fired(s1, n, aiId);
    assert s2.timers == c.timers + [ComposeStage(EditReply)];
    assert Without(s2.timers, n) == c.timers;
    var s3 := Fired(s2, n, aiId);
    assert s3.timers == c.timers + [ReplyStage(EditReply)];
    assert Without(s3.timers, n) == c.timers;
  }

  /** As written, an edit started on a message and typed into the composer saves the
      message's old text: the content never changes, whatever was typed. Saving the
      composer's text instead stores what was typed. */
  lemma {:induction false} EditKeepsOldTextAsWritten(c: Chat, k: nat, typed: string)
    requires k < |c.messages| && c.messages[k].id != ""
    requires IndexOfMessage(c.messages, c.messages[k].id) == k
    ensures var e := EditStarted(c, k).(input := typed);
      SavedAsWritten(e).messages[k] == c.messages[k] && Saved(e).messages[k].content == typed
  {
    var m := c.messages[k];
    var e := EditStarted(c, k).(input := typed);
    assert e.messages == c.messages && e.editingMessageId == Some(m.id) && e.editInput == m.content;
    assert HasMessage(c.messages, m.id);
  }

  /** Regenerating a message and letting its timer fire rewrites only that message. */
  lemma {:induction false} RegenerateThenDone(c: Chat, id: string, aiId: string)
    requires HasMessage(c.messages, id)
    ensures var s1 := Regenerating(c, id);
      var n := |c.timers|;
      && n < |s1.timers| && s1.timers[n] == RegenerateDone(id)
      && var s2 := Fired(s1, n, aiId);
      && var k := IndexOfMessage(c.messages, id);
      && |s2.messages| == |c.messages|
      && s2.messages[k] == c.messages[k].(content := RegeneratedContent, lastThought := Some(RegeneratedThought),
                                          verifiedSegments := None, sources := None)
      && (forall i :: 0 <= i < |c.messages| && c.messages[i].id != id ==> s2.messages[i] == c.messages[i])
      && s2.timers == c.timers
  {
    var n := |c.timers|;
    var s1 := Regenerating(c, id);
    assert s1.timers[n] == RegenerateDone(id);
    WithoutLast(c.timers, RegenerateDone(id));
    assert Fired(s1, n, aiId) == c.(messages := MapWhere(s1.messages, id, FinishRegenerate));
    RegenerateOutcome(c.messages, id);
  }

  /** Regenerating does not cancel a verification already scheduled for the message: when
      that timer fires after the placeholder, the regenerated text ends up carrying the
      segments and sources checked for the old one. */
  lemma {:induction false} VerifyOutlivesRegenerate(c: Chat, id: string, aiId: string)
    requires HasMessage(c.messages, id)
    ensures var n := |c.timers|;
      var s := Regenerating(Verifying(c, id), id);
      && n + 1 < |s.timers| && s.timers[n] == VerifyDone(id) && s.timers[n + 1] == RegenerateDone(id)
      && var s1 := Fired(s, n, aiId);
      && n < |s1.timers| && s1.timers[n] == RegenerateDone(id)
      && var s2 := Fired(s1, n, aiId);
      && var k := IndexOfMessage(c.messages, id);
      && |s2.messages| == |c.messages|
      && s2.messages[k].content == RegeneratedContent
      && s2.messages[k].verifiedSegments == Some(CheckedSegments) && s2.messages[k].sources == Some(CheckedSources)
  {
    var n := |c.timers|;
    VerifyThenRegenerateTimers(c, id, aiId);
    VerifyBeforeRegenerateFinishes(c.messages, id);
  }

  /** The timer side of `VerifyOutlivesRegenerate`: the two timers fire in turn, each
      applying its own update to the messages. */
  lemma VerifyThenRegenerateTimers(c: Chat, id: string, aiId: string)
    ensures var n := |c.timers|;
      var s := Regenerating(Verifying(c, id), id);
      && s.timers == c.timers + [VerifyDone(id), RegenerateDone(id)]
      && var s1 := Fired(s, n, aiId);
      && s1.timers == c.timers + [RegenerateDone(id)]
      && s1.messages == MapWhere(StartRegenerate(c.messages, id), id, FinishVerify)
      && Fired(s1, n, aiId).messages == MapWhere(s1.messages, id, FinishRegenerate)
  {
    var n := |c.timers|;
    var s := Regenerating(Verifying(c, id), id);
    assert s.timers == c.timers + [VerifyDone(id), RegenerateDone(id)];
    assert Without(s.timers, n) == c.timers + [RegenerateDone(id)];
  }

  /** Verifying shows the spinner on that message until its timer fires, which attaches
      the fixed segments and sources to every message with the id and clears the spinner. */
  lemma {:induction false} VerifyThenDone(c: Chat, id: string, aiId: string)
    ensures var s1 := Verifying(c, id);
      var n := |c.timers|;
      && s1.isVerifying == Some(id) && s1.messages == c.messages
      && n < |s1.timers| && s1.timers[n] == VerifyDone(id)
      && var s2 := Fired(s1, n, aiId);
      && s2.isVerifying.None? && Ids(s2.messages) == Ids(c.messages) && s2.timers == c.timers
      && forall i :: 0 <= i < |c.messages| ==>
        s2.messages[i] == (if c.messages[i].id == id then c.messages[i].(verifiedSegments := Some(CheckedSegments), sources := Some(CheckedSources)) else c.messages[i])
  {
    var n := |c.timers|;
    var s1 := Verifying(c, id);
    assert s1.timers[n] == VerifyDone(id);
    WithoutLast(c.timers, VerifyDone(id));
    FiredVerifyDone(s1, n, id, aiId);
    var ms := MapWhere(c.messages, id, FinishVerify);
    forall i | 0 <= i < |c.messages|
      ensures ms[i] == (if c.messages[i].id == id then c.messages[i].(verifiedSegments := Some(CheckedSegments), sources := Some(CheckedSources)) else c.messages[i])
    {
    }
    MapWhereKeepsShape(c.messages, id, FinishVerify);
  }

  lemma FiredVerifyDone(c: Chat, i: nat, id: string, aiId: string)
    requires i < |c.timers| && c.timers[i] == VerifyDone(id)
    ensures Fired(c, i, aiId) == c.(timers := Without(c.timers, i), messages := MapWhere(c.messages, id, FinishVerify), isVerifying := None)
  {
  }

  /** Nothing stops a second send while a reply is pending (by `SendRules`, two sends
      from the initial state leave exactly two first stages pending). The first reply
      then turns the generating indicator off although the second reply is still on its way. */
  lemma {:induction false} OverlappingSendsClearIndicatorEarly(s: Chat, aiId: string)
    requires s.timers == [ComposeStage(SendReply), ComposeStage(SendReply)]
    ensures Fired(s, 0, aiId).timers == [ComposeStage(SendReply), ReplyStage(SendReply)]
    ensures var s2 := Fired(Fired(s, 0, aiId), 1, aiId);
      !s2.isGenerating && s2.thinkingSteps == [] && s2.timers == [ComposeStage(SendReply)]
  {
    assert Without(s.timers, 0) == [ComposeStage(SendReply)];
    var s1 := Fired(s, 0, aiId);
    assert s1.timers == [ComposeStage(SendReply), ReplyStage(SendReply)];
    assert Without(s1.timers, 1) == [ComposeStage(SendReply)];
  }

  /** Saving an edit and sending keep likes and dislikes exclusive. */
  lemma {:induction false} SendKeepsNoConflict(c: Chat, items: seq<Item>, userId: string)
    requires NoConflict(c.messages)
    ensures NoConflict(Saved(c).messages) && NoConflict(Sent(c, items, userId).messages)
  {
    if Truthy(c.editingMessageId) {
      EditsKeepNoConflict(c.messages, c.editingMessageId.value, c.input, UserMessage(userId, c.input, items));
    } else {
      EditsKeepNoConflict(c.messages, "", c.input, UserMessage(userId, c.input, items));
    }
  }

  /** Every timer keeps likes and dislikes exclusive. */
  lemma {:induction false} FireKeepsNoConflict(c: Chat, i: nat, aiId: string)
    requires NoConflict(c.messages) && i < |c.timers|
    ensures NoConflict(Fired(c, i, aiId).messages)
  {
    match c.timers[i]
    case ComposeStage(_) =>
    case EditKickoff =>
    case ReplyStage(kind) => EditsKeepNoConflict(c.messages, "", "", AiReply(aiId, kind));
    case RegenerateDone(id) => UpdatesKeepNoConflict(c.messages, id, FinishRegenerate);
    case VerifyDone(id) => UpdatesKeepNoConflict(c.messages, id, FinishVerify);
  }

  /** The opening messages of a handoff carry no feedback. */
  lemma {:induction false} MountKeepsNoConflict(c: Chat, saved: Option<Handoff>, userId: string, aiId: string)
    requires NoConflict(c.messages)
    ensures NoConflict(Mounted(c, saved, userId, aiId).messages)
  {
    if saved.Some? && OpensChat(saved.value) {
      var ms := OpeningMessages(saved.value, userId, aiId);
      assert forall j :: 0 <= j < |ms| ==> !ms[j].liked;
    }
  }

  // ---------------------------------------------------------------------------
  // The page

  class ChatSession {
    var input: string
    var messages: seq<Message>
    var editingMessageId: Option<string>
    var editInput: string
    var isGenerating: bool
    var thinkingSteps: seq<string>
    var isVerifying: Option<string>
    var timers: seq<Timer>
    const tray: AttachmentTray
    const tools: ToolPicker

    function State(): Chat
      reads this
    {
      Chat(input, messages, editingMessageId, editInput, isGenerating, thinkingSteps, isVerifying, timers)
    }

    ghost predicate Valid()
      reads this, tray, tools
    {
      tray.Valid() && tools.Valid() && NoConflict(messages)
    }

    constructor ()
      ensures Valid() && fresh(tray) && fresh(tools)
      ensures State() == Initial && tray.items == [] && tray.preview.None?
      ensures tools.Current() == Selection(DefaultModelId, None, None, None)
    {
      input := "";
      messages := [];
      editingMessageId := None;
      editInput := "";
      isGenerating := false;
      thinkingSteps := [];
      isVerifying := None;
      timers := [];
      tray := new AttachmentTray();
      tools := new ToolPicker();
    }

    method Set(c: Chat)
      modifies this
      ensures State() == c
    {
      input, messages, editingMessageId, editInput := c.input, c.messages, c.editingMessageId, c.editInput;
      isGenerating, thinkingSteps, isVerifying, timers := c.isGenerating, c.thinkingSteps, c.isVerifying, c.timers;
    }

    /** The mount effect: model and tool restored, the opening messages set, the slot emptied. */
    method Mount(slot: HandoffSlot, userId: string, aiId: string)
      requires Valid()
      modifies this, tools, slot
      ensures Valid() && slot.value.None?
      ensures State() == Mounted(old(State()), old(slot.value), userId, aiId)
      ensures old(slot.value).None? ==> tools.Current() == old(tools.Current())
      ensures old(slot.value).Some? ==>
        tools.Current() == old(tools.Current()).(modelId := RestoredModel(old(slot.value).value, old(tools.modelId)),
                                                 tool := RestoredTool(old(slot.value).value, old(tools.selectedTool)))
    {
      if slot.value.Some? {
        var h := slot.value.value;
        if Truthy(h.selectedModelId) && h.selectedModelId.value in ModelIds {
          tools.ChangeModel(h.selectedModelId.value);
        }
        if Truthy(h.selectedTool) {
          tools.selectedTool := h.selectedTool;
        }
        MountKeepsNoConflict(State(), slot.value, userId, aiId);
        Set(Mounted(State(), slot.value, userId, aiId));
        slot.value := None;
      }
    }

    method Type(s: string)
      modifies this
      ensures State() == old(State()).(input := s)
    {
      input := s;
    }

    method StartEdit(k: nat)
      requires Valid() && k < |messages|
      modifies this
      ensures Valid() && State() == EditStarted(old(State()), k)
    {
      Set(EditStarted(State(), k));
    }

    /** `handleSend`: the attachments move into the new message. */
    method Send(userId: string)
      requires Valid()
      modifies this, tray
      ensures Valid() && State() == Sent(old(State()), old(tray.items), userId)
      ensures Truthy(old(editingMessageId)) || !ShouldSend(old(input), old(tray.items)) ==> tray.items == old(tray.items)
      ensures !Truthy(old(editingMessageId)) && ShouldSend(old(input), old(tray.items)) ==> tray.items == []
      ensures tray.preview == old(tray.preview) && tray.live == old(tray.live) && tray.nextUrl == old(tray.nextUrl)
      ensures tray.retained == old(tray.retained) +
        (if !Truthy(old(editingMessageId)) && ShouldSend(old(input), old(tray.items)) then Thumbs(old(tray.items)) else {})
    {
      if Truthy(editingMessageId) {
        UpdateMessage();
        return;
      }
      if ShouldSend(input, tray.items) {
        var items := tray.TakeAll();
        SendKeepsNoConflict(State(), items, userId);
        Set(Sent(State(), items, userId));
      }
    }

    method UpdateMessage()
      requires Valid()
      modifies this
      ensures Valid() && State() == Saved(old(State()))
    {
      SendKeepsNoConflict(State(), [], "");
      Set(Saved(State()));
    }

    /** One pending timer fires. */
    method Fire(i: nat, aiId: string)
      requires Valid() && i < |timers|
      modifies this
      ensures Valid() && State() == Fired(old(State()), i, aiId)
    {
      FireKeepsNoConflict(State(), i, aiId);
      Set(Fired(State(), i, aiId));
    }

    method ToggleThinking(id: string)
      requires Valid()
      modifies this
      ensures Valid() && State() == Touched(old(State()), id, Update.ToggleThinking)
    {
      UpdatesKeepNoConflict(messages, id, Update.ToggleThinking);
      messages := MapWhere(messages, id, Update.ToggleThinking);
    }

    method Like(id: string)
      requires Valid()
      modifies this
      ensures Valid() && State() == Touched(old(State()), id, Update.Like)
    {
      UpdatesKeepNoConflict(messages, id, Update.Like);
      messages := MapWhere(messages, id, Update.Like);
    }

    method Dislike(id: string)
      requires Valid()
      modifies this
      ensures Valid() && State() == Touched(old(State()), id, Update.Dislike)
    {
      UpdatesKeepNoConflict(messages, id, Update.Dislike);
      messages := MapWhere(messages, id, Update.Dislike);
    }

    method Regenerate(id: string)
      requires Valid()
      modifies this
      ensures Valid() && State() == Regenerating(old(State()), id)
    {
      Set(Regenerating(State(), id));
    }

    method VerifyAnswer(id: string)
      requires Valid()
      modifies this
      ensures Valid() && State() == Verifying(old(State()), id)
    {
      isVerifying := Some(id);
      timers := timers + [VerifyDone(id)];
    }

    /** `handleToolClick`: during a chat the click only opens the new-chat dialog. */
    method ToolClick(t: string)
      requires Valid()
      modifies tools
      ensures Valid() && tools.Current() == Click(old(tools.Current()), t, |messages| > 0)
    {
      tools.ToolClick(t, |messages| > 0);
    }

    /** `handleConfirmToolSwitch`: stores the model and the chosen tool for the next page
        when a tool is pending, and always goes to `/`. */
    method ConfirmToolSwitch(slot: HandoffSlot) returns (nav: Nav)
      requires Valid()
      modifies tools, slot
      ensures Valid() && nav == Push("/")
      ensures tools.Current() == NewChatCancelled(old(tools.Current()))
      ensures Truthy(old(tools.pendingTool)) ==> slot.value == Some(ToolSwitchHandoff(old(tools.modelId), old(tools.pendingTool).value))
      ensures !Truthy(old(tools.pendingTool)) ==> slot.value == old(slot.value)
    {
      if Truthy(tools.pendingTool) {
        slot.value := Some(ToolSwitchHandoff(tools.modelId, tools.pendingTool.value));
      }
      tools.CancelToolSwitch();
      nav := Push("/");
    }

    /** The "new chat" button: drops any stored handoff and goes to `/`. */
    method NewChat(slot: HandoffSlot) returns (nav: Nav)
      modifies slot
      ensures slot.value.None? && nav == Push("/")
    {
      slot.value := None;
      nav := Push("/");
    }
  }
}
