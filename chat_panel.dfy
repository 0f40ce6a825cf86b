/** The chat panel's send logic (`handleSend` in
    components/chat/ChatPanel.tsx): the message log, the input box and the
    pending-request flag, updated in two steps around the `sendChat` call. */
module ChatUi {
  import opened Js
  import opened Chat

  const WarningPrefix := "\U{26A0}\U{FE0F} "
  const ErrorContactingServer := "Error contacting server"

  datatype Role = User | Assistant

  datatype Message = Message(role: Role, content: string)

  /** The characters `String.prototype.trim` removes: JavaScript's
      WhiteSpace and LineTerminator code points. */
  predicate IsSpace(c: char) {
    c == '\t' || c == '\n' || c == '\U{000B}' || c == '\U{000C}' || c == '\r' || c == ' '
    || c == '\U{00A0}' || c == '\U{1680}' || ('\U{2000}' <= c <= '\U{200A}')
    || c == '\U{2028}' || c == '\U{2029}' || c == '\U{202F}' || c == '\U{205F}'
    || c == '\U{3000}' || c == '\U{FEFF}'
  }

  /** `s` with its leading spaces removed: a suffix of `s`. */
  function TrimStart(s: string): (t: string)
    ensures |t| <= |s| && t == s[|s| - |t|..]
    ensures forall k :: 0 <= k < |s| - |t| ==> IsSpace(s[k])
    ensures t != [] ==> !IsSpace(t[0])
  {
    if s != [] && IsSpace(s[0]) then TrimStart(s[1..]) else s
  }

  /** `s` with its trailing spaces removed: a prefix of `s`. */
  function TrimEnd(s: string): (t: string)
    ensures |t| <= |s| && t == s[..|t|]
    ensures forall k :: |t| <= k < |s| ==> IsSpace(s[k])
    ensures t != [] ==> !IsSpace(t[|t| - 1])
  {
    if s != [] && IsSpace(s[|s| - 1]) then TrimEnd(s[..|s| - 1]) else s
  }

  /** `s.trim()`: the slice of `s` left after removing leading and trailing
      spaces; everything removed is a space, and the slice neither starts
      nor ends with one. */
  function Trim(s: string): (t: string)
    ensures |t| <= |TrimStart(s)| <= |s|
    ensures forall k :: 0 <= k < |t| ==> t[k] == s[|s| - |TrimStart(s)| + k]
    ensures t != "" ==> !IsSpace(t[0]) && !IsSpace(t[|t| - 1])
    ensures forall k :: 0 <= k < |s| - |TrimStart(s)| ==> IsSpace(s[k])
    ensures forall k :: |s| - |TrimStart(s)| + |t| <= k < |s| ==> IsSpace(s[k])
  {
    var u := TrimStart(s);
    var t := TrimEnd(u);
    PrefixOfSuffix(s, u, t);
    t
  }

  /** A prefix `t` of a suffix `u` of `s`, with only spaces before `u` in `s`
      and after `t` in `u`, is a slice of `s` (character by character)
      surrounded only by spaces; it starts where `u` starts. */
  lemma PrefixOfSuffix(s: string, u: string, t: string)
    requires |u| <= |s| && u == s[|s| - |u|..]
    requires forall k :: 0 <= k < |s| - |u| ==> IsSpace(s[k])
    requires u != [] ==> !IsSpace(u[0])
    requires |t| <= |u| && t == u[..|t|]
    requires forall k :: |t| <= k < |u| ==> IsSpace(u[k])
    requires t != [] ==> !IsSpace(t[|t| - 1])
    ensures |t| <= |u| <= |s|
    ensures forall k :: 0 <= k < |t| ==> t[k] == s[|s| - |u| + k]
    ensures t != "" ==> !IsSpace(t[0]) && !IsSpace(t[|t| - 1])
    ensures forall k :: 0 <= k < |s| - |u| ==> IsSpace(s[k])
    ensures forall k :: |s| - |u| + |t| <= k < |s| ==> IsSpace(s[k])
  {
    var i := |s| - |u|;
    forall k | i + |t| <= k < |s|
      ensures IsSpace(s[k])
    {
      assert s[k] == u[k - i];
    }
    assert t != [] ==> t[0] == u[0];
  }

  /** The trimmed text is empty exactly when the input holds nothing but
      spaces; otherwise it is a slice of the input that neither starts nor
      ends with a space. */
  lemma TrimEmptyIffAllSpace(s: string)
    ensures Trim(s) == "" <==> forall k :: 0 <= k < |s| ==> IsSpace(s[k])
    ensures Trim(s) != "" ==> !IsSpace(Trim(s)[0]) && !IsSpace(Trim(s)[|Trim(s)| - 1])
  {
    var t := Trim(s);
    if t != "" {
      assert t[0] == s[|s| - |TrimStart(s)|];
    }
  }

  /** The log alternates: user messages at even positions, assistant
      messages at odd ones. */
  predicate Alternating(log: seq<Message>) {
    forall k :: 0 <= k < |log| ==> log[k].role == (if k % 2 == 0 then User else Assistant)
  }

  /** The assistant bubble a finished `sendChat` call adds: the reply, or the
      warning sign followed by the error message or a fixed text. */
  function AssistantContent(result: ChatResult): (c: string)
    ensures result.Reply? ==> c == result.text
    ensures result.Fail? ==>
              |c| > |WarningPrefix| && c[..|WarningPrefix|] == WarningPrefix
              && c[|WarningPrefix|..] == (if result.message != "" then result.message else ErrorContactingServer)
  {
    match result
    case Reply(text) => text
    case Fail(message) => WarningPrefix + (if message != "" then message else ErrorContactingServer)
  }

  class ChatPanel {
    var messages: seq<Message>
    var input: string
    var loading: bool

    /** The `loading` gate keeps the log in step: when no request is pending
        the log has even length and alternates user, assistant; while one is
        pending the last entry is the user message awaiting its answer. */
    ghost predicate Valid()
      reads this
      ensures Valid() && loading ==> messages != [] && messages[|messages| - 1].role == User
      ensures Valid() && !loading && messages != [] ==> messages[|messages| - 1].role == Assistant
    {
      Alternating(messages) && (loading <==> |messages| % 2 == 1)
    }

    /** The submit button's `disabled` property: a request is pending or
        the input holds nothing but spaces. */
    predicate SendDisabled()
      reads this
      ensures SendDisabled() <==> loading || forall k :: 0 <= k < |input| ==> IsSpace(input[k])
    {
      TrimEmptyIffAllSpace(input);
      loading || Trim(input) == ""
    }

    constructor ()
      ensures Valid() && messages == [] && input == "" && !loading
    {
      messages := [];
      input := "";
      loading := false;
    }

    /** Typing in the input box; allowed while a request is pending. */
    method SetInput(value: string)
      requires Valid()
      modifies this
      ensures Valid() && input == value && messages == old(messages) && loading == old(loading)
    {
      input := value;
    }

    /** The synchronous part of `handleSend`, up to the `sendChat` call. A
        send is refused, changing nothing, exactly when the button is
        disabled; an accepted one logs the trimmed text as a user message,
        clears the input, raises `loading` and returns the text to send. */
    method BeginSend() returns (sent: Option<string>)
      requires Valid()
      modifies this
      ensures Valid()
      ensures sent.Some? <==> !old(SendDisabled())
      ensures sent.None? ==> messages == old(messages) && input == old(input) && loading == old(loading)
      ensures sent.Some? ==>
                sent.value == Trim(old(input)) && sent.value != ""
                && messages == old(messages) + [Message(User, sent.value)]
                && input == "" && loading
    {
      var text := Trim(input);
      if text == "" || loading {
        return None;
      }
      messages := messages + [Message(User, text)];
      input := "";
      loading := true;
      sent := Some(text);
    }

    /** The rest of `handleSend` once `sendChat` has returned or thrown:
        exactly one assistant message is appended and `loading` is lowered
        on either path; the input box is left as the user has it. */
    method Complete(result: ChatResult)
      requires Valid() && loading
      modifies this
      ensures Valid() && !loading && input == old(input)
      ensures messages == old(messages) + [Message(Assistant, AssistantContent(result))]
    {
      messages := messages + [Message(Assistant, AssistantContent(result))];
      loading := false;
    }

    /** `handleSend` from start to end when nothing else changes the panel
        while `sendChat` runs: the trimmed text is what is sent, and the
        call's outcome is what is logged after it. */
    method HandleSend(post: Json -> Delivery)
      requires Valid()
      modifies this
      ensures Valid()
      ensures old(SendDisabled()) ==>
                messages == old(messages) && input == old(input) && loading == old(loading)
      ensures !old(SendDisabled()) ==>
                var text := Trim(old(input));
                messages == old(messages) + [Message(User, text), Message(Assistant, AssistantContent(SendChat(text, post)))]
                && input == "" && !loading
    {
      var sent := BeginSend();
      if sent.Some? {
        var result := SendChat(sent.value, post);
        Complete(result);
      }
    }
  }
}
