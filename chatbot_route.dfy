/** The chatbot endpoint's preparation of the chat history: the history the
    page sends is trimmed so that it starts with a user message, and each
    message's sender is mapped to the model's two roles. The call to the
    language model itself is left out. */
module ChatbotRoute {
  import opened Common

  /** The sender values of the page: `Sender.User` and `Sender.Bot`. */
  const User: string := "user"
  const Bot: string := "model"

  /** A message as the page sends it; the role is whatever string arrived. */
  datatype Message = Message(role: string, text: string)

  /** A history entry as the model's chat session takes it. */
  datatype Turn = Turn(role: string, text: string)

  /** What the endpoint answers before the model is called. */
  datatype Prepared = MissingKey(status: int, error: string) | Session(history: seq<Turn>)

  predicate AllBots(s: seq<Message>)
  {
    forall k :: 0 <= k < |s| ==> s[k].role == Bot
  }

  /** The filter's test for the message at `index`: a bot message is
      dropped when every message before it is a bot message. */
  predicate KeptAt(arr: seq<Message>, index: int)
    requires 0 <= index < |arr|
  {
    !(index == 0 && arr[index].role == Bot) && !(AllBots(arr[..index]) && arr[index].role == Bot)
  }

  /** `filter` over `arr[from..]`, with indices into the whole of `arr`. */
  function FilterFrom(arr: seq<Message>, from: int): seq<Message>
    requires 0 <= from <= |arr|
    decreases |arr| - from
  {
    if from == |arr| then []
    else (if KeptAt(arr, from) then [arr[from]] else []) + FilterFrom(arr, from + 1)
  }

  /** `history.slice(0, -1)`: everything but the last message. */
  function DropLast(history: seq<Message>): (r: seq<Message>)
    ensures |history| > 0 ==> r == history[..|history| - 1]
    ensures |history| == 0 ==> r == []
  {
    if |history| == 0 then [] else history[..|history| - 1]
  }

  /** The filtered history. */
  function Filtered(history: seq<Message>): seq<Message>
  {
    FilterFrom(DropLast(history), 0)
  }

  /** The number of bot messages the history starts with. */
  function LeadingBots(arr: seq<Message>): (n: nat)
    ensures n <= |arr| && AllBots(arr[..n])
    ensures n < |arr| ==> arr[n].role != Bot
  {
    if arr == [] || arr[0].role != Bot then 0
    else
      var n := 1 + LeadingBots(arr[1..]);
      assert forall k :: 1 <= k < n ==> arr[..n][k] == arr[1..][..n - 1][k - 1];
      n
  }

  /** A message past the leading bot run passes the filter's test. */
  lemma KeptPastRun(arr: seq<Message>, from: int)
    requires LeadingBots(arr) <= from < |arr|
    ensures KeptAt(arr, from)
  {
    var n := LeadingBots(arr);
    if from == n {
      assert arr[from].role != Bot;
    } else {
      var prefix := arr[..from];
      assert prefix[n].role != Bot;
      assert !AllBots(prefix);
    }
  }

  /** Past the leading bot run every message is kept. */
  lemma {:induction false} FilterKeepsTail(arr: seq<Message>, from: int)
    requires LeadingBots(arr) <= from <= |arr|
    ensures FilterFrom(arr, from) == arr[from..]
    decreases |arr| - from
  {
    if from < |arr| {
      KeptPastRun(arr, from);
      FilterKeepsTail(arr, from + 1);
      assert arr[from..] == [arr[from]] + arr[from + 1..];
    }
  }

  /** Within the leading bot run every message is dropped. */
  lemma {:induction false} FilterDropsRun(arr: seq<Message>, from: int)
    requires 0 <= from <= LeadingBots(arr)
    ensures FilterFrom(arr, from) == FilterFrom(arr, LeadingBots(arr))
    decreases LeadingBots(arr) - from
  {
    var n := LeadingBots(arr);
    if from < n {
      assert arr[..n][from] == arr[from];
      assert forall k :: 0 <= k < from ==> arr[..from][k] == arr[..n][k];
      assert !KeptAt(arr, from);
      FilterDropsRun(arr, from + 1);
    }
  }

  /** The filter removes exactly the leading run of bot messages of the
      history without its last message: the result is a suffix of it that
      is empty or starts with a message that is not the bot's. */
  lemma FilteredIsSuffix(history: seq<Message>)
    ensures var arr := DropLast(history);
      && Filtered(history) == arr[LeadingBots(arr)..]
      && (|Filtered(history)| > 0 ==> Filtered(history)[0].role != Bot)
  {
    var arr := DropLast(history);
    FilterDropsRun(arr, 0);
    FilterKeepsTail(arr, LeadingBots(arr));
  }

  /** The role the model sees: "user" for a user message, "model" for any
      other. */
  function ModelRole(role: string): (r: string)
    ensures r == "user" || r == "model"
    ensures r == "user" <==> role == User
  {
    if role == User then "user" else "model"
  }

  function Turns(messages: seq<Message>): (r: seq<Turn>)
    ensures |r| == |messages|
    ensures forall k :: 0 <= k < |messages| ==> r[k] == Turn(ModelRole(messages[k].role), messages[k].text)
  {
    seq(|messages|, k requires 0 <= k < |messages| => Turn(ModelRole(messages[k].role), messages[k].text))
  }

  /** `POST` up to the model call: without an API key (absent or empty) it
      answers 500 before the body is read; otherwise the session starts from
      the filtered history. */
  function Prepare(apiKey: Option<string>, history: seq<Message>): (r: Prepared)
    ensures apiKey.None? || apiKey.value == "" ==> r.MissingKey? && r.status == 500
    ensures apiKey.Some? && apiKey.value != "" ==> r == Session(Turns(Filtered(history)))
  {
    if apiKey.None? || apiKey.value == "" then
      MissingKey(500, "Error: API Key is missing. Please check your configuration.")
    else Session(Turns(Filtered(history)))
  }

  /** When every message comes from the user or the bot, as the page's
      types say, the session never starts with the model's turn. */
  lemma SessionStartsWithUser(apiKey: Option<string>, history: seq<Message>)
    requires forall k :: 0 <= k < |history| ==> history[k].role == User || history[k].role == Bot
    ensures var r := Prepare(apiKey, history);
      r.Session? && |r.history| > 0 ==> r.history[0].role == "user"
  {
    FilteredIsSuffix(history);
    var arr := DropLast(history);
    var n := LeadingBots(arr);
    if n < |arr| {
      assert arr[n] == history[n];
    }
  }

  /** The last message the page sends never reaches the session, and
      without a key the answer does not depend on the history. */
  lemma LastMessageIgnored(apiKey: Option<string>, history: seq<Message>, last: Message, other: seq<Message>)
    requires |history| > 0
    ensures Prepare(apiKey, history) == Prepare(apiKey, history[..|history| - 1] + [last])
    ensures Prepare(apiKey, history).MissingKey? ==> Prepare(apiKey, history) == Prepare(apiKey, other)
  {
    assert DropLast(history[..|history| - 1] + [last]) == DropLast(history);
  }
}
