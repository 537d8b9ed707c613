/** The chat-log store: up to 100 conversations under one `localStorage` key,
    newest first. */
module ChatLogStore {
  import opened Types
  import opened SeqUtil

  /** How many logs the store keeps. */
  const MaxLogs: nat := 100

  /** One saved conversation. */
  datatype ChatLog = ChatLog(
    id: string,
    date: Timestamp,
    messages: seq<ChatMessage>,
    serviceType: Option<string>,
    quoteGenerated: bool)

  function LogId(log: ChatLog): (r: string) {
    log.id
  }

  /** The log `saveChatLog` builds at time `now`: its id is `now` in decimal and
      an omitted `quoteGenerated` is `false`. */
  function NewLog(messages: seq<ChatMessage>, serviceType: Option<string>,
                  quoteGenerated: Option<bool>, now: nat): (r: ChatLog)
    ensures r.id == NatToDecimal(now) && r.date == now
    ensures r.messages == messages && r.serviceType == serviceType
    ensures r.quoteGenerated <==> quoteGenerated == Some(true)
  {
    ChatLog(NatToDecimal(now), now, messages, serviceType, quoteGenerated.GetOr(false))
  }

  /** `logs.unshift(newLog); logs.slice(0, 100)`: the new log first, followed
      by as many of the old ones, in order, as fit under the cap. */
  function Prepended(logs: seq<ChatLog>, newLog: ChatLog): (r: seq<ChatLog>)
    ensures |r| == if |logs| < MaxLogs then |logs| + 1 else MaxLogs
    ensures r[0] == newLog
    ensures r[1..] == logs[..|r| - 1]
  {
    var all := [newLog] + logs;
    var r := all[..if |all| < MaxLogs then |all| else MaxLogs];
    assert r[1..] == logs[..|r| - 1];
    r
  }

  class Store {
    var stored: Stored<ChatLog>

    constructor (initial: Stored<ChatLog>)
      ensures stored == initial
    {
      stored := initial;
    }

    /** `getChatLogs`. */
    function GetChatLogs(): (r: seq<ChatLog>)
      reads this
      ensures stored.Present? ==> r == stored.items
      ensures !stored.Present? ==> r == []
    {
      StoredItems(stored)
    }

    /** `saveChatLog`; the clock reading `now` is a parameter. */
    method SaveChatLog(messages: seq<ChatMessage>, serviceType: Option<string>,
                       quoteGenerated: Option<bool>, now: nat)
      modifies this
      ensures stored == Present(Prepended(old(GetChatLogs()), NewLog(messages, serviceType, quoteGenerated, now)))
    {
      var logs := GetChatLogs();
      var newLog := ChatLog(NatToDecimal(now), now, messages, serviceType, quoteGenerated.GetOr(false));
      logs := [newLog] + logs;
      var trimmedLogs := logs[..if |logs| < MaxLogs then |logs| else MaxLogs];
      stored := Present(trimmedLogs);
    }

    /** `deleteChatLog`: write back the list without the logs with this id;
        an id that is not there still rewrites the key. */
    method DeleteChatLog(id: string)
      modifies this
      ensures stored == Present(RemoveByKey(old(GetChatLogs()), LogId, id))
    {
      var logs := GetChatLogs();
      var filteredLogs := RemoveByKey(logs, LogId, id);
      stored := Present(filteredLogs);
    }

    /** `clearAllChatLogs`: remove the key. */
    method ClearAllChatLogs()
      modifies this
      ensures stored == Absent
      ensures GetChatLogs() == []
    {
      stored := Absent;
    }
  }

  /** Saving onto a full store drops exactly the oldest log. */
  lemma PrependedFull(logs: seq<ChatLog>, newLog: ChatLog)
    requires |logs| >= MaxLogs
    ensures Prepended(logs, newLog) == [newLog] + logs[..MaxLogs - 1]
  {
    var r := Prepended(logs, newLog);
    assert r == [r[0]] + r[1..];
  }

  /** Below the cap nothing is dropped. */
  lemma PrependedRoom(logs: seq<ChatLog>, newLog: ChatLog)
    requires |logs| < MaxLogs
    ensures Prepended(logs, newLog) == [newLog] + logs
  {
    var r := Prepended(logs, newLog);
    assert r == [r[0]] + r[1..];
  }

  /** The cap is kept by every save, whatever the store held. */
  lemma {:induction false} SavesKeepCap(logs: seq<ChatLog>, newLogs: seq<ChatLog>)
    requires |logs| <= MaxLogs
    ensures |SaveAll(logs, newLogs)| <= MaxLogs
    ensures newLogs != [] ==> SaveAll(logs, newLogs)[0] == newLogs[|newLogs| - 1]
  {
    if newLogs != [] {
      SavesKeepCap(logs, newLogs[..|newLogs| - 1]);
    }
  }

  /** The logs after saving `newLogs` one after another. */
  function SaveAll(logs: seq<ChatLog>, newLogs: seq<ChatLog>): (r: seq<ChatLog>) {
    if newLogs == [] then logs
    else Prepended(SaveAll(logs, newLogs[..|newLogs| - 1]), newLogs[|newLogs| - 1])
  }

  /** A deletion leaves no log with that id and keeps every other log, in order. */
  lemma DeleteRemovesOnlyThatId(logs: seq<ChatLog>, id: string, other: ChatLog)
    ensures forall log :: log in RemoveByKey(logs, LogId, id) ==> log.id != id
    ensures other in logs && other.id != id ==> other in RemoveByKey(logs, LogId, id)
  {
  }

  /** A log just saved can be deleted again by its id: the rest is the earlier
      list, minus the oldest log if the store was full, when no earlier log had
      the same id. */
  lemma {:induction false} DeleteAfterSave(logs: seq<ChatLog>, newLog: ChatLog)
    requires forall log :: log in logs ==> log.id != newLog.id
    ensures RemoveByKey(Prepended(logs, newLog), LogId, newLog.id)
            == logs[..|Prepended(logs, newLog)| - 1]
  {
    var r := Prepended(logs, newLog);
    var rest := logs[..|r| - 1];
    assert r == [newLog] + rest by { assert r == [r[0]] + r[1..]; }
    RemoveByKeyConcat([newLog], rest, LogId, newLog.id);
    assert [newLog][..0] == [];
    assert RemoveByKey([newLog], LogId, newLog.id) == [];
    assert forall log :: log in rest ==> log in logs;
    RemoveByKeyNone(rest, LogId, newLog.id);
  }
}
