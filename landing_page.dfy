/** The landing page's composer: the same attachment tray and tool picker as the chat
    page, and a send that hands the composer over to the chat page instead of starting
    a conversation itself. */
module LandingApp {
  import opened Common
  import opened Attachments
  import opened Tools
  import opened Handoff

  class LandingComposer {
    var input: string
    const tray: AttachmentTray
    const tools: ToolPicker

    ghost predicate Valid()
      reads this, tray, tools
    {
      tray.Valid() && tools.Valid()
    }

    constructor ()
      ensures Valid() && fresh(tray) && fresh(tools)
      ensures input == "" && tray.items == [] && tray.preview.None?
      ensures tools.Current() == Selection(DefaultModelId, None, None, None)
    {
      input := "";
      tray := new AttachmentTray();
      tools := new ToolPicker();
    }

    method Type(s: string)
      modifies this
      ensures input == s
    {
      input := s;
    }

    /** `handleSend`: with something to send, the snapshot is stored and the page goes to
        `/chat`; otherwise nothing happens. The composer itself is left as it is. */
    method Send(slot: HandoffSlot) returns (nav: Nav)
      requires Valid()
      modifies slot
      ensures ShouldSend(input, tray.items) ==>
        slot.value == Some(Snapshot(input, tools.modelId, tools.selectedTool, tray.items)) && nav == Push("/chat")
      ensures !ShouldSend(input, tray.items) ==> slot.value == old(slot.value) && nav == Stay
    {
      if ShouldSend(input, tray.items) {
        slot.value := Some(Snapshot(input, tools.modelId, tools.selectedTool, tray.items));
        nav := Push("/chat");
      } else {
        nav := Stay;
      }
    }

    /** `handleToolClick`: the landing page has no transcript, so it never opens the
        new-chat dialog. */
    method ToolClick(t: string)
      requires Valid()
      modifies tools
      ensures Valid() && tools.Current() == Click(old(tools.Current()), t, false)
      ensures tools.pendingTool == old(tools.pendingTool)
    {
      tools.ToolClick(t, false);
    }

    /** The "new chat" button. */
    method NewChat() returns (nav: Nav)
      ensures nav == Push("/")
    {
      nav := Push("/");
    }
  }
}
