/** Model and tool selection, shared by the landing and the chat pages: the tool toggle,
    the guard that asks before leaving the `hanbat` model for another tool, and (on the
    chat page only) the guard that asks before starting a new chat for another tool. */
module Tools {
  import opened Common

  /** The ids of `MODELS`, in order. */
  const ModelIds: seq<string> := ["hanbat", "standard", "fast", "deep"]
  const HanbatId: string := "hanbat"
  /** `MODELS[1]`, the initial model and the one a confirmed switch selects. */
  const DefaultModelId: string := "standard"

  /** JavaScript truthiness of an optional string: present and not empty. */
  predicate Truthy(s: Option<string>) {
    s.Some? && s.value != ""
  }

  /** The selection state of one page. `pendingTool` is only ever set on the chat page. */
  datatype Selection = Selection(modelId: string, tool: Option<string>, toolToActivate: Option<string>, pendingTool: Option<string>)

  /** `activateTool(t)`: deselects `t` when it is the selected tool, selects it otherwise. */
  function Toggle(selected: Option<string>, t: string): Option<string> {
    if selected == Some(t) then None else Some(t)
  }

  /** The toggle selects `t` exactly when `t` was not selected, and toggling twice
      restores any selection that was empty or was `t`. */
  lemma {:induction false} ToggleRules(selected: Option<string>, t: string)
    ensures Toggle(selected, t) == Some(t) <==> selected != Some(t)
    ensures Toggle(selected, t).None? <==> selected == Some(t)
    ensures selected.None? || selected == Some(t) ==> Toggle(Toggle(selected, t), t) == selected
    ensures selected.Some? && selected != Some(t) ==> Toggle(Toggle(selected, t), t).None?
  {
  }

  /** `handleToolClick(t)`; `chatting` is `messages.length > 0`, always false on the landing page. */
  function Click(s: Selection, t: string, chatting: bool): Selection {
    if chatting then s.(pendingTool := Some(t))
    else if s.modelId == HanbatId && t != HanbatId then s.(toolToActivate := Some(t))
    else s.(tool := Toggle(s.tool, t))
  }

  /** During a chat a click only records the tool for the new-chat dialog; on the `hanbat`
      model a click on another tool only records it for the switch dialog; any other
      click toggles the tool. The model never changes. */
  lemma {:induction false} ClickRules(s: Selection, t: string, chatting: bool)
    ensures Click(s, t, chatting).modelId == s.modelId
    ensures chatting ==> Click(s, t, chatting) == s.(pendingTool := Some(t))
    ensures !chatting && s.modelId == HanbatId && t != HanbatId ==> Click(s, t, chatting) == s.(toolToActivate := Some(t))
    ensures Click(s, t, chatting).tool != s.tool ==> !chatting && (s.modelId != HanbatId || t == HanbatId)
    ensures !chatting && (s.modelId != HanbatId || t == HanbatId) ==> Click(s, t, chatting).tool == Toggle(s.tool, t)
  {
  }

  /** `handleConfirmSwitch`: the default model, and the recorded tool toggled in. */
  function Confirmed(s: Selection): Selection {
    var tool := if Truthy(s.toolToActivate) then Toggle(s.tool, s.toolToActivate.value) else s.tool;
    s.(modelId := DefaultModelId, tool := tool, toolToActivate := None)
  }

  /** `handleCancelSwitch`: the recorded tool is forgotten, nothing else changes. */
  function Cancelled(s: Selection): Selection {
    s.(toolToActivate := None)
  }

  /** `handleCancelToolSwitch`: the tool recorded for a new chat is forgotten. */
  function NewChatCancelled(s: Selection): Selection {
    s.(pendingTool := None)
  }

  /** Clicking another tool on the `hanbat` model and confirming the dialog leaves the
      `standard` model with the tool toggled as a direct click would have; cancelling
      leaves model and tool as they were. */
  lemma {:induction false} SwitchDialog(s: Selection, t: string)
    requires s.modelId == HanbatId && t != HanbatId && t != ""
    ensures var c := Confirmed(Click(s, t, false));
      c.modelId == DefaultModelId && c.tool == Toggle(s.tool, t) && c.toolToActivate.None?
    ensures var c := Cancelled(Click(s, t, false));
      c.modelId == s.modelId && c.tool == s.tool && c.toolToActivate.None?
  {
  }

  /** The model and tool fields of one page. */
  class ToolPicker {
    var modelId: string
    var selectedTool: Option<string>
    var toolToActivate: Option<string>
    var pendingTool: Option<string>

    function Current(): Selection
      reads this
    {
      Selection(modelId, selectedTool, toolToActivate, pendingTool)
    }

    /** The selected model is always one of `MODELS`. */
    ghost predicate Valid()
      reads this
    {
      modelId in ModelIds
    }

    constructor ()
      ensures Valid()
      ensures Current() == Selection(DefaultModelId, None, None, None)
    {
      modelId := DefaultModelId;
      selectedTool := None;
      toolToActivate := None;
      pendingTool := None;
    }

    /** `handleModelChange`: the model picked from the menu; the transcript is kept. */
    method ChangeModel(id: string)
      requires Valid() && id in ModelIds
      modifies this
      ensures Valid() && Current() == old(Current()).(modelId := id)
    {
      modelId := id;
    }

    method ActivateTool(t: string)
      requires Valid()
      modifies this
      ensures Valid() && Current() == old(Current()).(tool := Toggle(old(selectedTool), t))
    {
      if selectedTool == Some(t) {
        selectedTool := None;
      } else {
        selectedTool := Some(t);
      }
    }

    method ToolClick(t: string, chatting: bool)
      requires Valid()
      modifies this
      ensures Valid() && Current() == Click(old(Current()), t, chatting)
    {
      if chatting {
        pendingTool := Some(t);
        return;
      }
      if modelId == HanbatId && t != HanbatId {
        toolToActivate := Some(t);
        return;
      }
      ActivateTool(t);
    }

    method ConfirmSwitch()
      requires Valid()
      modifies this
      ensures Valid() && Current() == Confirmed(old(Current()))
    {
      modelId := DefaultModelId;
      if toolToActivate.Some? && toolToActivate.value != "" {
        ActivateTool(toolToActivate.value);
      }
      toolToActivate := None;
    }

    method CancelSwitch()
      requires Valid()
      modifies this
      ensures Valid() && Current() == Cancelled(old(Current()))
    {
      toolToActivate := None;
    }

    method CancelToolSwitch()
      requires Valid()
      modifies this
      ensures Valid() && Current() == NewChatCancelled(old(Current()))
    {
      pendingTool := None;
    }
  }
}
