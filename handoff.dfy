/** The one-shot handoff from the landing page to the chat page: the landing page's send
    stores a snapshot of its composer under one session-storage key, the chat page reads
    it once when it mounts and removes it. The stored JSON is modelled as the decoded
    record; a field JSON leaves out is `None`. */
module Handoff {
  import opened Common
  import opened Text
  import opened Attachments
  import opened Transcript
  import opened Tools

  datatype Handoff = Handoff(
    input: Option<string>,
    selectedModelId: Option<string>,
    selectedTool: Option<string>,
    hasFiles: Option<bool>,
    attachedItems: Option<seq<Item>>)

  /** The storage slot that holds the handoff between the two pages. */
  class HandoffSlot {
    var value: Option<Handoff>

    constructor ()
      ensures value.None?
    {
      value := None;
    }
  }

  // ---------------------------------------------------------------------------
  // Producer (the landing page's `handleSend`)

  /** The composer is sent when the trimmed input is not empty or something is attached. */
  predicate ShouldSend(input: string, items: seq<Item>) {
    Trim(input) != "" || |items| > 0
  }

  /** An attachment as it is serialised: every field but the `File` object. */
  function Serialised(items: seq<Item>): (r: seq<Item>)
    ensures |r| == |items|
    ensures forall i :: 0 <= i < |items| ==> r[i] == items[i].(file := None)
  {
    seq(|items|, i requires 0 <= i < |items| => items[i].(file := None))
  }

  /** The snapshot the landing page stores. */
  function Snapshot(input: string, modelId: string, tool: Option<string>, items: seq<Item>): Handoff {
    Handoff(Some(input), Some(modelId), tool, Some(|items| > 0), Some(Serialised(items)))
  }

  /** The snapshot records whether files are attached, and the attachments in the same
      order with id, kind, name, type, text and thumbnail kept and no file object. */
  lemma {:induction false} SnapshotKeepsAttachments(input: string, modelId: string, tool: Option<string>, items: seq<Item>)
    ensures var h := Snapshot(input, modelId, tool, items);
      h.hasFiles == Some(|items| > 0) && h.attachedItems.Some? && |h.attachedItems.value| == |items|
      && forall i :: 0 <= i < |items| ==>
        var s := h.attachedItems.value[i];
        s.file.None? && s.id == items[i].id && s.kind == items[i].kind && s.name == items[i].name
        && s.mimeType == items[i].mimeType && s.textContent == items[i].textContent && s.thumbUrl == items[i].thumbUrl
  {
  }

  /** The handoff the chat page's new-chat dialog stores before navigating to `/`. */
  function ToolSwitchHandoff(modelId: string, tool: string): Handoff {
    Handoff(None, Some(modelId), Some(tool), None, None)
  }

  // ---------------------------------------------------------------------------
  // Consumer (the chat page's `inheritState`)

  /** The model after mounting: the stored one when its id is one of `MODELS`. */
  function RestoredModel(h: Handoff, current: string): (r: string)
    ensures r == current || (h.selectedModelId.Some? && r == h.selectedModelId.value)
    ensures current in ModelIds ==> r in ModelIds
  {
    if Truthy(h.selectedModelId) && h.selectedModelId.value in ModelIds then h.selectedModelId.value else current
  }

  lemma {:induction false} ModelRestoredOnlyFromModels(h: Handoff, current: string)
    ensures RestoredModel(h, current) != current ==> h.selectedModelId.Some? && h.selectedModelId.value in ModelIds
    ensures h.selectedModelId.Some? && h.selectedModelId.value in ModelIds ==> RestoredModel(h, current) == h.selectedModelId.value
  {
  }

  /** The tool after mounting: the stored one when it is present and not empty. */
  function RestoredTool(h: Handoff, current: Option<string>): Option<string> {
    if Truthy(h.selectedTool) then h.selectedTool else current
  }

  /** Whether mounting opens a conversation: stored input, or stored attachments. */
  predicate OpensChat(h: Handoff) {
    Truthy(h.input) || (h.attachedItems.Some? && |h.attachedItems.value| > 0)
  }

  /** The two messages that open the conversation: the user's text (or none) with the
      stored attachments, then the greeting. */
  function OpeningMessages(h: Handoff, userId: string, aiId: string): (ms: seq<Message>)
    ensures |ms| == 2 && ms[0].role == UserRole && ms[1] == GreetingMessage(aiId)
    ensures ms[0].content == h.input.GetOr("") && ms[0].files == h.attachedItems.GetOr([])
  {
    [UserMessage(userId, h.input.GetOr(""), h.attachedItems.GetOr([])), GreetingMessage(aiId)]
  }

  /** Everything the landing page sends reaches the chat page: the model, the tool when
      one is selected, and a conversation that starts with the sent text and attachments
      (without their file objects), followed by the greeting. */
  lemma {:induction false} HandoffRoundTrip(input: string, modelId: string, tool: Option<string>, items: seq<Item>,
                                            current: Selection, userId: string, aiId: string)
    requires ShouldSend(input, items) && modelId in ModelIds
    ensures var h := Snapshot(input, modelId, tool, items);
      && RestoredModel(h, current.modelId) == modelId
      && RestoredTool(h, current.tool) == (if Truthy(tool) then tool else current.tool)
      && OpensChat(h)
      && OpeningMessages(h, userId, aiId) == [UserMessage(userId, input, Serialised(items)), GreetingMessage(aiId)]
  {
    SnapshotRestoresModel(input, modelId, tool, items, current.modelId);
    SnapshotRestoresTool(input, modelId, tool, items, current.tool);
    SnapshotOpensChat(input, modelId, tool, items);
    SnapshotOpening(input, modelId, tool, items, userId, aiId);
  }

  lemma SnapshotRestoresModel(input: string, modelId: string, tool: Option<string>, items: seq<Item>, current: string)
    requires modelId in ModelIds
    ensures RestoredModel(Snapshot(input, modelId, tool, items), current) == modelId
  {
  }

  lemma SnapshotRestoresTool(input: string, modelId: string, tool: Option<string>, items: seq<Item>, current: Option<string>)
    ensures RestoredTool(Snapshot(input, modelId, tool, items), current) == (if Truthy(tool) then tool else current)
  {
  }

  lemma SnapshotOpensChat(input: string, modelId: string, tool: Option<string>, items: seq<Item>)
    requires ShouldSend(input, items)
    ensures OpensChat(Snapshot(input, modelId, tool, items))
  {
  }

  lemma SnapshotOpening(input: string, modelId: string, tool: Option<string>, items: seq<Item>, userId: string, aiId: string)
    ensures OpeningMessages(Snapshot(input, modelId, tool, items), userId, aiId)
      == [UserMessage(userId, input, Serialised(items)), GreetingMessage(aiId)]
  {
  }

  /** The new-chat dialog's handoff restores model and tool but opens no conversation. */
  lemma {:induction false} ToolSwitchHandoffOpensNoChat(modelId: string, tool: string, current: Selection)
    requires modelId in ModelIds && tool != ""
    ensures var h := ToolSwitchHandoff(modelId, tool);
      RestoredModel(h, current.modelId) == modelId && RestoredTool(h, current.tool) == Some(tool) && !OpensChat(h)
  {
  }
}
