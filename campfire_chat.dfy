/** The campfire chat: the last messages with their senders' names, each new
    message from the realtime channel appended at the end, and the send form
    that inserts the trimmed text of a signed-in user. */
module CampfireChat {
  import opened Wrappers
  import Lists
  import Text
  import Rows
  import Profiles

  const You := "You"

  /** A message as the chat keeps it. */
  datatype Message = Message(row: Rows.ChatMessage, userName: string)

  /** The row the send form inserts. */
  datatype NewMessage = NewMessage(userId: string, message: string)

  /** The result of the messages query: an error, or the rows (absent for
      `null`). */
  datatype Fetched = FetchFailed | Fetched(rows: Option<seq<Rows.ChatMessage>>)

  /** `[...new Set(data?.map(m => m.user_id) || [])]`. */
  function SenderIds(rows: seq<Rows.ChatMessage>): (ids: seq<string>)
    ensures Lists.NoDuplicates(ids)
    ensures forall i :: 0 <= i < |rows| ==> rows[i].userId in ids
    ensures forall u :: u in ids ==> exists i :: 0 <= i < |rows| && rows[i].userId == u
  {
    var all := Lists.Map(rows, (m: Rows.ChatMessage) => m.userId);
    assert forall i :: 0 <= i < |rows| ==> all[i] == rows[i].userId;
    Lists.Dedup(all)
  }

  /** The loaded messages: the rows in their order, each with its sender's
      name or "Camper". */
  function WithNames(rows: seq<Rows.ChatMessage>, names: map<string, Option<string>>): (msgs: seq<Message>)
    ensures |msgs| == |rows|
    ensures forall i :: 0 <= i < |rows| ==>
      msgs[i].row == rows[i] && msgs[i].userName == Profiles.NameOf(names, rows[i].userId)
  {
    Lists.Map(rows, (m: Rows.ChatMessage) => Message(m, Profiles.NameOf(names, m.userId)))
  }

  /** The sender shown under a message: "You" for the signed-in user's own
      messages, the joined-in name otherwise. */
  function SenderLabel(m: Message, currentUser: string): (r: string)
    ensures m.row.userId == currentUser ==> r == You
    ensures m.row.userId != currentUser ==> r == m.userName
  {
    if m.row.userId == currentUser then You else m.userName
  }

  /** The send guard: a signed-in user and a message that is not blank. */
  predicate CanSend(user: Option<string>, text: string) {
    user.Some? && Text.Trim(text) != []
  }

  /** The inserted row, when the guard lets the message through: the user's
      id and the trimmed text. */
  function Outgoing(user: Option<string>, text: string): (r: Option<NewMessage>)
    ensures r.Some? <==> CanSend(user, text)
    ensures r.Some? ==> r.value.userId == user.value && r.value.message == Text.Trim(text)
  {
    if CanSend(user, text) then Some(NewMessage(user.value, Text.Trim(text))) else None
  }

  /** An inserted message is never empty and has nothing left to trim. */
  lemma OutgoingIsTrimmed(user: Option<string>, text: string)
    requires CanSend(user, text)
    ensures var m := Outgoing(user, text).value.message; m != [] && Text.Trim(m) == m
  {
    Text.TrimIdempotent(text);
  }

  class Chat {
    var messages: seq<Message>
    var newMessage: string
    var loading: bool
    var sending: bool

    constructor ()
      ensures messages == [] && newMessage == "" && loading && !sending
    {
      messages, newMessage, loading, sending := [], "", true, false;
    }

    /** `fetchMessages`. `profilesFor` is the lookup by id list; `queried`
        is the id list it was called with, if it was. A failed query leaves
        the messages as they were. */
    method Load(fetched: Fetched, profilesFor: seq<string> -> Option<seq<Rows.Profile>>)
      returns (queried: Option<seq<string>>)
      modifies this`messages, this`loading
      ensures !loading
      ensures fetched.FetchFailed? ==> queried.None? && messages == old(messages)
      ensures fetched.Fetched? ==>
        var rows := fetched.rows.GetOr([]);
        && queried == Some(SenderIds(rows))
        && messages == WithNames(rows, Profiles.NameMap(profilesFor(SenderIds(rows))))
    {
      queried := None;
      if fetched.Fetched? {
        var rows := fetched.rows.GetOr([]);
        var ids := SenderIds(rows);
        messages := WithNames(rows, Profiles.NameMap(profilesFor(ids)));
        queried := Some(ids);
      }
      loading := false;
    }

    /** An insert event of the realtime channel, with the sender's profile
        row if there is one: the message is appended at the end and the
        earlier ones stay as they were. */
    method Receive(row: Rows.ChatMessage, profile: Option<Rows.Profile>)
      modifies this`messages
      ensures |messages| == |old(messages)| + 1
      ensures messages[..|old(messages)|] == old(messages)
      ensures messages[|old(messages)|] == Message(row, Profiles.OrCamper(if profile.Some? then profile.value.name else None))
    {
      messages := messages + [Message(row, Profiles.OrCamper(if profile.Some? then profile.value.name else None))];
    }

    method Type(text: string)
      modifies this`newMessage
      ensures newMessage == text
    {
      newMessage := text;
    }

    /** `handleSendMessage`. `insertOk` is whether the insert succeeded;
        `sent` is the row inserted, if any. A guarded-out message changes
        nothing; the input is cleared only after a successful insert. */
    method Send(user: Option<string>, insertOk: NewMessage -> bool) returns (sent: Option<NewMessage>)
      modifies this`newMessage, this`sending
      ensures sent == Outgoing(user, old(newMessage))
      ensures sent.None? ==> newMessage == old(newMessage) && sending == old(sending)
      ensures sent.Some? ==> !sending
      ensures sent.Some? && insertOk(sent.value) ==> newMessage == ""
      ensures sent.Some? && !insertOk(sent.value) ==> newMessage == old(newMessage)
    {
      sent := Outgoing(user, newMessage);
      if sent.Some? {
        sending := true;
        var ok := insertOk(sent.value);
        if ok {
          newMessage := "";
        }
        sending := false;
      }
    }
  }
}
