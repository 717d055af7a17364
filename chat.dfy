/**
 * The chat message-log state machine of the `useChat` hook: the message log, the
 * input buffer, the `busy` flag, the `error` slot and the tunnel id, and the
 * asynchronous `send` split into its three sequential steps (begin, then success
 * or failure). The translation request itself is an abstract `Outcome`.
 */
module Chat {
  import opened Options
  import JsString

  datatype Role = User | Agent

  datatype Status = Pending | Sent | Error

  /** One entry of the log. `translated` and `status` are optional fields of the record. */
  datatype Message = Message(
    id: string,
    role: Role,
    text: string,
    translated: Option<string>,
    status: Option<Status>,
    createdAt: int)

  /** What the translation request ended with: the reply body `{translated, lang}`,
      or the message of the error it raised. */
  datatype Outcome = Ok(translated: string, lang: string) | Err(message: string)

  /** Placeholder text of the agent entry while its translation is in flight. */
  const TranslatingText := "Traduciendo..."

  /** Text the agent entry takes when the translation fails. */
  const FailedText := "Error al traducir"

  /** Opening of the text shown for a successful translation, before the language tag. */
  const SuccessLead := "Traducción ("

  /** The user entry a send appends: the text as given, already `sent`. */
  function UserMessage(id: string, text: string, createdAt: int): Message {
    Message(id, User, text, None, Some(Sent), createdAt)
  }

  /** The agent placeholder a send appends, `pending` until the translation settles. */
  function PendingAgent(id: string, createdAt: int): Message {
    Message(id, Agent, TranslatingText, None, Some(Pending), createdAt)
  }

  /** The text shown for a translation: `Traducción (<LANG>): <translated>`. It opens with the
      fixed lead, carries the upper-cased language tag right after it, and ends with the
      translation itself. */
  function SuccessText(lang: string, translated: string): (r: string)
    ensures |r| == |SuccessLead| + |lang| + 3 + |translated|
    ensures r[..|SuccessLead|] == SuccessLead
    ensures r[|SuccessLead|..|SuccessLead| + |lang|] == JsString.Upper(lang)
    ensures r[|SuccessLead| + |lang|..|SuccessLead| + |lang| + 3] == "): "
    ensures r[|r| - |translated|..] == translated
  {
    SuccessLead + JsString.Upper(lang) + "): " + translated
  }

  /** The settled form of an entry: on success it shows the translation, is `sent` and records
      `translated`; on failure it shows the fixed failure text, is `error` and keeps whatever
      `translated` it had. Id, role and creation time never change, and the result is never
      `pending`. */
  function Settle(m: Message, o: Outcome): (r: Message)
    ensures r.id == m.id && r.role == m.role && r.createdAt == m.createdAt
    ensures r.status != Some(Pending)
    ensures o.Ok? ==> r.status == Some(Sent) && r.translated == Some(o.translated)
                      && r.text == SuccessText(o.lang, o.translated)
    ensures o.Err? ==> r.status == Some(Error) && r.translated == m.translated && r.text == FailedText
  {
    match o
    case Ok(translated, lang) =>
      m.(text := SuccessText(lang, translated), status := Some(Sent), translated := Some(translated))
    case Err(_) =>
      m.(text := FailedText, status := Some(Error))
  }

  /** The log with a user entry and then an agent entry added at its end. */
  function AppendPair(log: seq<Message>, user: Message, agent: Message): (r: seq<Message>)
    ensures |r| == |log| + 2
    ensures r[..|log|] == log
    ensures r[|log|] == user && r[|log| + 1] == agent
  {
    log + [user, agent]
  }

  /** Update-by-id, as a map over the log: every entry whose id is `id` is settled with `o`,
      every other entry is kept as it is, in the same place. */
  function SettleById(log: seq<Message>, id: string, o: Outcome): (r: seq<Message>)
    ensures |r| == |log|
    ensures forall i :: 0 <= i < |log| ==>
              r[i] == if log[i].id == id then Settle(log[i], o) else log[i]
  {
    if log == [] then []
    else [if log[0].id == id then Settle(log[0], o) else log[0]] + SettleById(log[1..], id, o)
  }

  /** The ids present in the log. */
  function IdSet(log: seq<Message>): set<string> {
    set m | m in log :: m.id
  }

  /** No two entries of the log share an id. */
  predicate UniqueIds(log: seq<Message>) {
    forall i, j :: 0 <= i < j < |log| ==> log[i].id != log[j].id
  }

  /** The ids of the entries still waiting for their translation. */
  function PendingIds(log: seq<Message>): set<string> {
    set m | m in log && m.status == Some(Pending) :: m.id
  }

  /** Update-by-id is a no-op when no entry carries the id, as when the log was cleared
      while the translation was in flight. */
  lemma {:induction false} SettleAbsentIsNoOp(log: seq<Message>, id: string, o: Outcome)
    requires id !in IdSet(log)
    ensures SettleById(log, id, o) == log
  {
    if log != [] {
      assert log[0] in log;
      assert IdSet(log[1..]) <= IdSet(log) by {
        forall m | m in log[1..] ensures m in log { }
      }
      SettleAbsentIsNoOp(log[1..], id, o);
      assert log == [log[0]] + log[1..];
    }
  }

  /** Update-by-id distributes over concatenation. */
  lemma {:induction false} SettleByIdAppend(a: seq<Message>, b: seq<Message>, id: string, o: Outcome)
    ensures SettleById(a + b, id, o) == SettleById(a, id, o) + SettleById(b, id, o)
  {
    var l, r := SettleById(a + b, id, o), SettleById(a, id, o) + SettleById(b, id, o);
    forall i | 0 <= i < |a + b| ensures l[i] == r[i] {
      if i < |a| { assert (a + b)[i] == a[i]; } else { assert (a + b)[i] == b[i - |a|]; }
    }
  }

  /** A whole send, seen on the log: appending the pair and later settling the agent entry by id
      leaves every earlier entry and the user entry as they were and changes only the agent
      entry, provided the two ids are new. */
  lemma SendThenSettle(log: seq<Message>, text: string, userId: string, agentId: string,
                       userAt: int, agentAt: int, o: Outcome)
    requires userId != agentId && agentId !in IdSet(log)
    ensures SettleById(AppendPair(log, UserMessage(userId, text, userAt), PendingAgent(agentId, agentAt)), agentId, o)
            == log + [UserMessage(userId, text, userAt), Settle(PendingAgent(agentId, agentAt), o)]
  {
    var u, p := UserMessage(userId, text, userAt), PendingAgent(agentId, agentAt);
    SettleByIdAppend(log, [u, p], agentId, o);
    SettleAbsentIsNoOp(log, agentId, o);
    assert SettleById([u, p], agentId, o) == [u, Settle(p, o)];
  }

  /** Update-by-id keeps every id in place, so it keeps ids unique. */
  lemma SettleKeepsIds(log: seq<Message>, id: string, o: Outcome)
    ensures IdSet(SettleById(log, id, o)) == IdSet(log)
    ensures UniqueIds(log) ==> UniqueIds(SettleById(log, id, o))
  {
    var r := SettleById(log, id, o);
    forall x | x in IdSet(r) ensures x in IdSet(log) {
      var i :| 0 <= i < |r| && r[i].id == x;
      assert log[i] in log;
    }
    forall x | x in IdSet(log) ensures x in IdSet(r) {
      var i :| 0 <= i < |log| && log[i].id == x;
      assert r[i] in r;
    }
  }

  /** Appending two entries with new, distinct ids keeps ids unique. */
  lemma AppendPairKeepsUnique(log: seq<Message>, user: Message, agent: Message)
    requires UniqueIds(log)
    requires user.id != agent.id && user.id !in IdSet(log) && agent.id !in IdSet(log)
    ensures UniqueIds(AppendPair(log, user, agent))
    ensures IdSet(AppendPair(log, user, agent)) == IdSet(log) + {user.id, agent.id}
  {
    var r := AppendPair(log, user, agent);
    forall i, j | 0 <= i < j < |r| ensures r[i].id != r[j].id {
      if j < |log| {
        assert r[i] == log[i] && r[j] == log[j];
      } else if i < |log| {
        assert r[i] == log[i] && log[i] in log;
      }
    }
    assert r == log + [user, agent];
  }

  /** Settling by id takes exactly that id out of the pending set. */
  lemma SettleClearsPending(log: seq<Message>, id: string, o: Outcome)
    ensures PendingIds(SettleById(log, id, o)) == PendingIds(log) - {id}
  {
    var r := SettleById(log, id, o);
    forall x | x in PendingIds(r) ensures x in PendingIds(log) - {id} {
      var i :| 0 <= i < |r| && r[i].id == x && r[i].status == Some(Pending);
      assert log[i] in log;
    }
    forall x | x in PendingIds(log) - {id} ensures x in PendingIds(r) {
      var i :| 0 <= i < |log| && log[i].id == x && log[i].status == Some(Pending);
      assert r[i] in r;
    }
  }

  /** `b` is `a` with at most one entry replaced. */
  predicate DifferAtMostOnce(a: seq<Message>, b: seq<Message>) {
    |a| == |b| &&
    forall i, j :: 0 <= i < |a| && 0 <= j < |a| && a[i] != b[i] && a[j] != b[j] ==> i == j
  }

  /** In a log whose ids are unique, update-by-id changes at most one entry. */
  lemma SettleChangesAtMostOne(log: seq<Message>, id: string, o: Outcome)
    requires UniqueIds(log)
    ensures DifferAtMostOnce(log, SettleById(log, id, o))
  {
    var r := SettleById(log, id, o);
    forall i, j | 0 <= i < |log| && 0 <= j < |log| && log[i] != r[i] && log[j] != r[j]
      ensures i == j
    {
      assert log[i].id == id && log[j].id == id;
    }
  }

  /** Appending the user/agent pair of a send adds exactly the agent's id to the pending set. */
  lemma AppendPairPending(log: seq<Message>, text: string, userId: string, agentId: string,
                          userAt: int, agentAt: int)
    ensures PendingIds(AppendPair(log, UserMessage(userId, text, userAt), PendingAgent(agentId, agentAt)))
            == PendingIds(log) + {agentId}
  {
    var u, p := UserMessage(userId, text, userAt), PendingAgent(agentId, agentAt);
    var r := AppendPair(log, u, p);
    assert r == log + [u, p];
    assert p in r;
    forall x | x in PendingIds(r) ensures x in PendingIds(log) + {agentId} {
      var m :| m in r && m.status == Some(Pending) && m.id == x;
      assert m in log || m == u || m == p;
    }
  }

  /** The hook alone does not serialise sends: two sends begun one after the other, with fresh
      ids and nothing pending before, leave two pending agent entries. */
  lemma {:induction false} UnguardedSendsBothPending(log: seq<Message>, text1: string, text2: string,
                                                    userId1: string, agentId1: string,
                                                    userId2: string, agentId2: string, at: int)
    requires PendingIds(log) == {} && agentId1 != agentId2
    ensures var once := AppendPair(log, UserMessage(userId1, text1, at), PendingAgent(agentId1, at));
            var twice := AppendPair(once, UserMessage(userId2, text2, at), PendingAgent(agentId2, at));
            PendingIds(twice) == {agentId1, agentId2} && |PendingIds(twice)| == 2
  {
    var once := AppendPair(log, UserMessage(userId1, text1, at), PendingAgent(agentId1, at));
    AppendPairPending(log, text1, userId1, agentId1, at, at);
    AppendPairPending(once, text2, userId2, agentId2, at, at);
  }

  /**
   * The state of one `useChat` hook instance. `send` is split into its sequential steps:
   * `BeginSend` (everything before the `await`), then `ResolveSuccess` or `ResolveFailure`
   * (the `try` or `catch` branch followed by the `finally`), taking the agent entry's id as the
   * closure over `pendingAgent` does. The hook's `send` has no guard of its own.
   */
  class ChatController {
    var messages: seq<Message>
    var input: string
    var busy: bool
    var error: Option<string>
    var tunnelId: string

    /** Every id in the log is distinct, as fresh ids keep it; this is what lets a resolution
        change at most one entry. */
    ghost predicate Valid()
      reads this
    {
      UniqueIds(messages)
    }

    /** A freshly mounted hook: empty log and input, not busy, no error, a first tunnel id. */
    constructor (initialTunnel: string)
      ensures Valid()
      ensures messages == [] && input == "" && !busy && error == None && tunnelId == initialTunnel
    {
      messages := [];
      input := "";
      busy := false;
      error := None;
      tunnelId := initialTunnel;
    }

    /** `setInput`: replaces the input buffer and nothing else. */
    method SetInput(value: string)
      requires Valid()
      modifies this
      ensures Valid()
      ensures input == value
      ensures messages == old(messages) && busy == old(busy) && error == old(error)
      ensures tunnelId == old(tunnelId)
    {
      input := value;
    }

    /** `resetTunnel`: empties the log and installs a new tunnel id; nothing else changes. */
    method ResetTunnel(newTunnel: string)
      requires Valid()
      modifies this
      ensures Valid()
      ensures messages == [] && tunnelId == newTunnel
      ensures input == old(input) && busy == old(busy) && error == old(error)
    {
      messages := [];
      tunnelId := newTunnel;
    }

    /** The synchronous part of `send(text)`: appends the user entry and the pending agent entry,
        raises `busy` and clears `error`. The two ids stand for fresh `createId()` values. */
    method BeginSend(text: string, userId: string, agentId: string, userAt: int, agentAt: int)
      requires Valid()
      requires userId != agentId && userId !in IdSet(messages) && agentId !in IdSet(messages)
      modifies this
      ensures Valid()
      ensures messages == AppendPair(old(messages), UserMessage(userId, text, userAt), PendingAgent(agentId, agentAt))
      ensures IdSet(messages) == old(IdSet(messages)) + {userId, agentId}
      ensures PendingIds(messages) == old(PendingIds(messages)) + {agentId}
      ensures busy && error == None
      ensures input == old(input) && tunnelId == old(tunnelId)
    {
      AppendPairKeepsUnique(messages, UserMessage(userId, text, userAt), PendingAgent(agentId, agentAt));
      AppendPairPending(messages, text, userId, agentId, userAt, agentAt);
      messages := AppendPair(messages, UserMessage(userId, text, userAt), PendingAgent(agentId, agentAt));
      busy := true;
      error := None;
    }

    /** The `try` branch and the `finally`: the entry with id `agentId`, if still in the log,
        shows the translation and is `sent`; `busy` drops; `error` is left as it is. */
    method ResolveSuccess(agentId: string, lang: string, translated: string)
      requires Valid()
      modifies this
      ensures Valid()
      ensures messages == SettleById(old(messages), agentId, Ok(translated, lang))
      ensures DifferAtMostOnce(old(messages), messages)
      ensures IdSet(messages) == old(IdSet(messages))
      ensures PendingIds(messages) == old(PendingIds(messages)) - {agentId}
      ensures !busy && error == old(error)
      ensures input == old(input) && tunnelId == old(tunnelId)
    {
      SettleKeepsIds(messages, agentId, Ok(translated, lang));
      SettleClearsPending(messages, agentId, Ok(translated, lang));
      SettleChangesAtMostOne(messages, agentId, Ok(translated, lang));
      messages := SettleById(messages, agentId, Ok(translated, lang));
      busy := false;
    }

    /** The `catch` branch and the `finally`: `error` holds the failure message, the entry with id
        `agentId`, if still in the log, shows the failure text and is `error`; `busy` drops. */
    method ResolveFailure(agentId: string, errMsg: string)
      requires Valid()
      modifies this
      ensures Valid()
      ensures messages == SettleById(old(messages), agentId, Err(errMsg))
      ensures DifferAtMostOnce(old(messages), messages)
      ensures IdSet(messages) == old(IdSet(messages))
      ensures PendingIds(messages) == old(PendingIds(messages)) - {agentId}
      ensures !busy && error == Some(errMsg)
      ensures input == old(input) && tunnelId == old(tunnelId)
    {
      error := Some(errMsg);
      SettleKeepsIds(messages, agentId, Err(errMsg));
      SettleClearsPending(messages, agentId, Err(errMsg));
      SettleChangesAtMostOne(messages, agentId, Err(errMsg));
      messages := SettleById(messages, agentId, Err(errMsg));
      busy := false;
    }

    /** Whichever branch the translation outcome selects. */
    method Resolve(agentId: string, o: Outcome)
      requires Valid()
      modifies this
      ensures Valid()
      ensures messages == SettleById(old(messages), agentId, o)
      ensures DifferAtMostOnce(old(messages), messages)
      ensures PendingIds(messages) == old(PendingIds(messages)) - {agentId}
      ensures !busy && error == (if o.Err? then Some(o.message) else old(error))
      ensures input == old(input) && tunnelId == old(tunnelId)
    {
      match o
      case Ok(translated, lang) => ResolveSuccess(agentId, lang, translated);
      case Err(message) => ResolveFailure(agentId, message);
    }

    /** A whole `send` with nothing interleaved: the log gains the user entry and the settled agent
        entry at its end, earlier entries untouched; `busy` ends false; `error` ends holding the
        failure message, or null after a success; the pending set ends as it began. */
    method Send(text: string, userId: string, agentId: string, userAt: int, agentAt: int, o: Outcome)
      requires Valid()
      requires userId != agentId && userId !in IdSet(messages) && agentId !in IdSet(messages)
      modifies this
      ensures Valid()
      ensures messages == old(messages) + [UserMessage(userId, text, userAt), Settle(PendingAgent(agentId, agentAt), o)]
      ensures PendingIds(messages) == old(PendingIds(messages))
      ensures !busy && error == (if o.Err? then Some(o.message) else None)
      ensures input == old(input) && tunnelId == old(tunnelId)
    {
      ghost var before := messages;
      BeginSend(text, userId, agentId, userAt, agentAt);
      Resolve(agentId, o);
      SendThenSettle(before, text, userId, agentId, userAt, agentAt, o);
      assert agentId !in PendingIds(before) by {
        assert PendingIds(before) <= IdSet(before);
      }
    }
  }
}
