/**
 * The main screen, mounted only behind an open gate. It owns one chat hook, its own
 * tunnel id and the delayed-notice flag, and guards every send: the hook itself never
 * refuses one. The guard is what serialises sends: while the screen is in use, the hook is
 * busy exactly when one send is in flight, and that send's agent entry is the only pending one.
 */
module Screen {
  import opened Options
  import opened Host
  import JsString
  import opened Chat

  class AgentScreen {
    var config: HostConfig
    var userName: string
    const chat: ChatController
    var tunnelId: string
    var showDelayNotice: bool
    /** The agent id of the send in flight, held by the pending `send` call's closure. */
    var inFlight: Option<string>

    /** `busy` is the gate of one outstanding send: it is raised exactly while a send is in
        flight, and then that send's agent entry is the only pending entry of the log. */
    ghost predicate Valid()
      reads this, chat
    {
      && chat.Valid()
      && (chat.busy <==> inFlight.Some?)
      && PendingIds(chat.messages) == (if inFlight.Some? then {inFlight.value} else {})
    }

    /** First render: a fresh hook with its own tunnel id, a separate screen tunnel id,
        and no delayed notice showing. */
    constructor (config: HostConfig, userName: string, screenTunnel: string, hookTunnel: string)
      ensures Valid() && fresh(chat) && inFlight == None
      ensures this.config == config && this.userName == userName
      ensures tunnelId == screenTunnel && !showDelayNotice
      ensures chat.messages == [] && chat.input == "" && !chat.busy && chat.error == None
      ensures chat.tunnelId == hookTunnel
    {
      this.config := config;
      this.userName := userName;
      chat := new ChatController(hookTunnel);
      tunnelId := screenTunnel;
      showDelayNotice := false;
      inFlight := None;
    }

    /** A re-render of the mounted screen with new props: the configuration and display name
        follow them, while the screen's own state and the whole hook state are kept. */
    method ReceiveProps(newConfig: HostConfig, newUserName: string)
      requires Valid()
      modifies this
      ensures Valid()
      ensures config == newConfig && userName == newUserName
      ensures tunnelId == old(tunnelId) && showDelayNotice == old(showDelayNotice)
      ensures inFlight == old(inFlight)
    {
      config := newConfig;
      userName := newUserName;
    }

    /** `onInputChange`: the typed text becomes the hook's input buffer. */
    method InputChange(value: string)
      requires Valid()
      modifies chat
      ensures Valid() && inFlight == old(inFlight)
      ensures chat.input == value
      ensures chat.messages == old(chat.messages) && chat.busy == old(chat.busy)
      ensures chat.error == old(chat.error) && chat.tunnelId == old(chat.tunnelId)
    {
      chat.SetInput(value);
    }

    /** `handleSend`: refuses when the trimmed input is empty or a send is in flight, leaving
        everything as it was; otherwise starts a send of the TRIMMED input and clears the input
        buffer; the started send is then the one in flight. The ids stand for the fresh values the
        hook would draw. */
    method HandleSend(userId: string, agentId: string, userAt: int, agentAt: int)
      returns (dispatched: bool)
      requires Valid()
      requires userId != agentId && userId !in IdSet(chat.messages) && agentId !in IdSet(chat.messages)
      modifies this, chat
      ensures Valid()
      ensures inFlight == if dispatched then Some(agentId) else old(inFlight)
      ensures tunnelId == old(tunnelId) && showDelayNotice == old(showDelayNotice)
      ensures config == old(config) && userName == old(userName)
      ensures dispatched <==> !JsString.AllWhitespace(old(chat.input)) && !old(chat.busy)
      ensures !dispatched ==>
                chat.messages == old(chat.messages) && chat.input == old(chat.input)
                && chat.busy == old(chat.busy) && chat.error == old(chat.error)
      ensures dispatched ==>
                chat.messages == AppendPair(old(chat.messages),
                                            UserMessage(userId, JsString.Trim(old(chat.input)), userAt),
                                            PendingAgent(agentId, agentAt))
                && chat.input == "" && chat.busy && chat.error == None
                && PendingIds(chat.messages) == old(PendingIds(chat.messages)) + {agentId}
      ensures chat.tunnelId == old(chat.tunnelId)
    {
      var text := JsString.Trim(chat.input);
      JsString.TrimEmptyIffBlank(chat.input);
      if text == "" || chat.busy {
        return false;
      }
      chat.BeginSend(text, userId, agentId, userAt, agentAt);
      chat.SetInput("");
      inFlight := Some(agentId);
      return true;
    }

    /** The awaited translation of the send in flight settles (the rest of `send` after its
        `await`): its agent entry is settled by id, `busy` drops, and no entry is pending any more. */
    method Complete(o: Outcome)
      requires Valid() && inFlight.Some?
      modifies this, chat
      ensures Valid() && inFlight == None
      ensures chat.messages == SettleById(old(chat.messages), old(inFlight).value, o)
      ensures DifferAtMostOnce(old(chat.messages), chat.messages)
      ensures !chat.busy && PendingIds(chat.messages) == {}
      ensures chat.error == (if o.Err? then Some(o.message) else old(chat.error))
      ensures chat.input == old(chat.input) && chat.tunnelId == old(chat.tunnelId)
      ensures tunnelId == old(tunnelId) && showDelayNotice == old(showDelayNotice)
      ensures config == old(config) && userName == old(userName)
    {
      chat.Resolve(inFlight.value, o);
      inFlight := None;
    }

    /** `onNewTunnel`: a new screen tunnel id; unlike the hook's `resetTunnel`, the log stays. */
    method NewTunnel(newTunnel: string)
      requires Valid()
      modifies this
      ensures Valid() && inFlight == old(inFlight)
      ensures tunnelId == newTunnel && showDelayNotice == old(showDelayNotice)
      ensures config == old(config) && userName == old(userName)
    {
      tunnelId := newTunnel;
    }

    /** The synchronous part of `handleDelayNotify`: without a host `notify` nothing happens;
        with one, the delayed notice shows before anything is scheduled. */
    method HandleDelayNotify()
      requires Valid()
      modifies this
      ensures Valid() && inFlight == old(inFlight)
      ensures showDelayNotice == (config.hasNotify || old(showDelayNotice))
      ensures tunnelId == old(tunnelId) && config == old(config) && userName == old(userName)
    {
      if !config.hasNotify {
        return;
      }
      showDelayNotice := true;
    }
  }
}
