/**
  One attempt of the fallback chain (`make_LLM_request`): choose the call
  shape from the model name, send the request, and turn any failure into
  `None`. Also the completion-style reshaping of a chat request, which the
  branch test as written never selects.
*/
module Request {
  import opened Common
  import opened Arguments

  /** Python truthiness of a string: only the empty string is false. */
  predicate Truthy(s: string) {
    s != ""
  }

  /** The branch test `"3.5" or "4" in model`. Python's `or` yields its
      left operand when that is truthy, so the membership test on the right
      is never evaluated. */
  predicate ChatBranchTaken(model: Value) {
    Truthy("3.5") || (model.Text? && '4' in model.text)
  }

  /** The test holds for every model value: each attempt is a chat call. */
  lemma ChatBranchAlwaysTaken(model: Value)
    ensures ChatBranchTaken(model)
  {
  }

  /** The two branches of an attempt (main.py:30-37), with the outcome of
      the branch test given as `chat`: the chat endpoint with the arguments
      as they are, or the completion reshaping followed by the completion
      endpoint. A failed reshaping raises inside the `try` and yields `None`. */
  method SendRequest(chat: bool, newKwargs: Kwargs, service: Service) returns (result: Option<Response>)
    modifies newKwargs
    ensures chat ==> result == service(ChatCompletion, old(newKwargs.entries)) &&
                     newKwargs.entries == old(newKwargs.entries)
    ensures !chat ==> newKwargs.entries == CompletionShape(old(newKwargs.entries))
    ensures !chat && !HasMessageList(old(newKwargs.entries)) ==> result == None
    ensures !chat && HasMessageList(old(newKwargs.entries)) ==>
              result == service(Completion, CompletionShape(old(newKwargs.entries)))
  {
    if chat {
      result := service(ChatCompletion, newKwargs.entries);
    } else {
      var ok := ToCompletionShape(newKwargs);
      if ok {
        result := service(Completion, newKwargs.entries);
      } else {
        result := None;
      }
    }
  }

  /** One attempt with the given arguments. A missing `model` key raises
      inside the `try` and yields `None`; otherwise the branch test always
      selects the chat endpoint, which gets the arguments exactly as given,
      whatever the model is. The arguments are left as they were. */
  method MakeRequest(newKwargs: Kwargs, service: Service) returns (result: Option<Response>)
    modifies newKwargs
    ensures ModelKey !in old(newKwargs.entries) ==> result == None
    ensures ModelKey in old(newKwargs.entries) ==> result == service(ChatCompletion, old(newKwargs.entries))
    ensures newKwargs.entries == old(newKwargs.entries)
  {
    result := None;
    if ModelKey in newKwargs.entries {
      var model := newKwargs.entries[ModelKey];
      ChatBranchAlwaysTaken(model);
      result := SendRequest(ChatBranchTaken(model), newKwargs, service);
    }
  }

  /** The `content` of every message, in order (the list comprehension). */
  function Contents(messages: seq<Message>): (r: seq<string>)
    ensures |r| == |messages|
    ensures forall i :: 0 <= i < |messages| ==> r[i] == messages[i].content
  {
    if messages == [] then [] else [messages[0].content] + Contents(messages[1..])
  }

  /** `" ".join(parts)` */
  function Join(parts: seq<string>): string {
    if |parts| == 0 then ""
    else if |parts| == 1 then parts[0]
    else parts[0] + " " + Join(parts[1..])
  }

  /** `s.split(" ")`: the pieces between single spaces, never an empty list. */
  function Split(s: string): (r: seq<string>)
    ensures |r| > 0
  {
    if |s| == 0 then [""]
    else
      var rest := Split(s[1..]);
      if s[0] == ' ' then [""] + rest else [[s[0]] + rest[0]] + rest[1..]
  }

  /** A piece without a space splits to itself. */
  lemma {:induction false} SplitWord(w: string)
    requires ' ' !in w
    ensures Split(w) == [w]
  {
    if |w| > 0 {
      assert ' ' !in w[1..];
      SplitWord(w[1..]);
      assert [w[0]] + w[1..] == w;
    }
  }

  /** A piece without a space followed by a space starts a new piece. */
  lemma {:induction false} SplitAfterWord(w: string, t: string)
    requires ' ' !in w
    ensures Split(w + " " + t) == [w] + Split(t)
  {
    if |w| == 0 {
      assert w + " " + t == [' '] + t;
      assert (w + " " + t)[1..] == t;
    } else {
      var s := w + " " + t;
      assert s[1..] == w[1..] + " " + t;
      assert ' ' !in w[1..];
      SplitAfterWord(w[1..], t);
      assert [w[0]] + w[1..] == w;
    }
  }

  /** Joining with single spaces loses nothing: when no piece contains a
      space, splitting the joined text on spaces gives back the pieces in
      their order. */
  lemma {:induction false} SplitJoin(parts: seq<string>)
    requires |parts| > 0
    requires forall i :: 0 <= i < |parts| ==> ' ' !in parts[i]
    ensures Split(Join(parts)) == parts
  {
    if |parts| == 1 {
      SplitWord(parts[0]);
    } else {
      SplitJoin(parts[1..]);
      SplitAfterWord(parts[0], Join(parts[1..]));
      assert [parts[0]] + parts[1..] == parts;
    }
  }

  /** The prompt a completion-style request carries: the message contents
      joined by single spaces. */
  function FlattenMessages(messages: seq<Message>): string {
    Join(Contents(messages))
  }

  /** The flattened prompt keeps every message's content, in order, when no
      content contains a space. */
  lemma FlattenKeepsContents(messages: seq<Message>)
    requires |messages| > 0
    requires forall i :: 0 <= i < |messages| ==> ' ' !in messages[i].content
    ensures Split(FlattenMessages(messages)) == Contents(messages)
  {
    SplitJoin(Contents(messages));
  }

  /** Iterating `messages` yields messages: a message list, or the empty
      string, which Python iterates as an empty sequence. Any other value
      raises (a number is not iterable; the characters of a non-empty
      string cannot be subscripted with "content"). */
  predicate Iterable(v: Value) {
    v.MessageList? || v == Text("")
  }

  /** The messages that iterating an iterable `messages` value yields. */
  function MessagesIn(v: Value): (r: seq<Message>)
    requires Iterable(v)
    ensures v == Text("") ==> r == []
    ensures v.MessageList? ==> r == v.messages
  {
    if v.MessageList? then v.messages else []
  }

  /** `messages` is present and can be iterated as messages. */
  predicate HasMessageList(entries: map<string, Value>) {
    MessagesKey in entries && Iterable(entries[MessagesKey])
  }

  /** The arguments of a completion-style request: `prompt` set to the
      flattened messages and `messages` dropped, every other key kept; the
      arguments unchanged when `messages` cannot be iterated as messages. */
  function CompletionShape(entries: map<string, Value>): (r: map<string, Value>)
    ensures !HasMessageList(entries) ==> r == entries
    ensures HasMessageList(entries) ==>
              && r.Keys == entries.Keys + {PromptKey} - {MessagesKey}
              && r[PromptKey] == Text(FlattenMessages(MessagesIn(entries[MessagesKey])))
              && forall k :: k in entries && k != PromptKey && k != MessagesKey ==> r[k] == entries[k]
  {
    if HasMessageList(entries)
    then entries[PromptKey := Text(FlattenMessages(MessagesIn(entries[MessagesKey])))] - {MessagesKey}
    else entries
  }

  /** An empty-string `messages` gives an empty prompt and is dropped. */
  lemma EmptyStringMessagesGiveEmptyPrompt(entries: map<string, Value>)
    requires MessagesKey in entries && entries[MessagesKey] == Text("")
    ensures CompletionShape(entries) == entries[PromptKey := Text("")] - {MessagesKey}
  {
  }

  /** The reshaping that precedes a completion call (main.py:35-36). `ok`
      is false when reading `messages` raises (absent, or not iterable as
      messages); the arguments are then left as they were and the attempt
      yields `None`. Never reached from MakeRequest: see
      ChatBranchAlwaysTaken. */
  method ToCompletionShape(kw: Kwargs) returns (ok: bool)
    modifies kw
    ensures ok == HasMessageList(old(kw.entries))
    ensures kw.entries == CompletionShape(old(kw.entries))
  {
    ok := HasMessageList(kw.entries);
    if ok {
      var prompt := FlattenMessages(MessagesIn(kw.entries[MessagesKey]));
      kw.Set(PromptKey, Text(prompt));
      kw.Pop(MessagesKey);
    }
  }
}
