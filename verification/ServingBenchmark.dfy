/**
 The mutable objects of the hicache serving benchmark: prompt lists that requests rewrite in
 place, request inputs, the bounded queue, and the set-up before the measured run.
 */
module ServingBenchmark {
  import opened ConversationQueue

  datatype Reply = Reply(answer: Answer) | Error

  /** The prompt list of a conversation; request inputs hold it by reference. */
  type PromptList = array<Prompt>

  class RequestInput {
    const prompts: PromptList
    var finished: nat
    var messages: seq<Message>

    constructor (prompts: PromptList)
      ensures this.prompts == prompts && State() == Started(prompts[..])
    {
      this.prompts, this.finished, this.messages := prompts, 0, [];
    }

    function State(): Conversation
      reads this, prompts
    {
      Conversation(prompts[..], finished, messages)
    }

    /** Up to the request: the user message is appended and the prompt length added up. */
    method Open() returns (post: Post)
      requires finished < prompts.Length
      modifies this
      ensures post == PostOf(old(State()))
      ensures State() == Opened(old(State()))
    {
      var p := prompts[finished];
      var promptLen: nat := 0;
      for j := 0 to finished
        invariant promptLen == LengthOf(prompts[..j])
      {
        assert prompts[..j + 1][..j] == prompts[..j];
        promptLen := promptLen + prompts[j].inputLen + prompts[j].outputLen;
      }
      assert prompts[..][..finished] == prompts[..finished];
      promptLen := promptLen + p.inputLen;
      messages := messages + [Message(User, p.text)];
      post := Post(messages, p.outputLen, promptLen);
    }

    /** From the response on; a conversation with turns left goes to the end of the queue if there is room. */
    method Close(reply: Reply, queue: BoundedQueue) returns (blocked: bool)
      requires finished < prompts.Length
      modifies this, prompts, queue
      ensures reply.Error? ==> State() == old(State()) && queue.items == old(queue.items) && !blocked
      ensures reply.Reply? ==> State() == Answered(old(State()), reply.answer)
      ensures reply.Reply? ==>
        if !HasNext(old(State())) then queue.items == old(queue.items) && !blocked
        else blocked == old(queue.Full()) && queue.items == old(queue.items) + if blocked then [] else [this]
    {
      blocked := false;
      if reply.Reply? {
        var index := finished;
        prompts[index] := Prompt(prompts[index].text, prompts[index].inputLen, reply.answer.len);
        index := index + 1;
        messages := messages + [Message(Assistant, reply.answer.text)];
        if index < prompts.Length {
          finished := index;
          var ok := queue.PutNowait(this);
          blocked := !ok;
        }
        assert prompts[..] == Answered(old(State()), reply.answer).prompts;
      }
    }
  }

  /** A FIFO queue; a `maxsize` of zero means that it has no bound. */
  class BoundedQueue {
    const maxsize: nat
    var items: seq<RequestInput>

    constructor (maxsize: nat)
      ensures this.maxsize == maxsize && items == []
    {
      this.maxsize, this.items := maxsize, [];
    }

    predicate Full()
      reads this
    {
      0 < maxsize <= |items|
    }

    method PutNowait(item: RequestInput) returns (ok: bool)
      modifies this
      ensures ok == !old(Full())
      ensures items == old(items) + if ok then [item] else []
    {
      ok := !(0 < maxsize <= |items|);
      if ok {
        items := items + [item];
      }
    }

    method Get() returns (item: RequestInput)
      requires items != []
      modifies this
      ensures old(items) == [item] + items
    {
      item := items[0];
      items := items[1..];
    }
  }

  // ----- set-up -----

  function Contents(lists: seq<PromptList>): (script: Script)
    reads lists
    ensures |script| == |lists| && forall i | 0 <= i < |lists| :: script[i] == lists[i][..]
  {
    if lists == [] then [] else [lists[0][..]] + Contents(lists[1..])
  }

  /** The conversations that are queued. */
  function Requests(script: Script, shared: bool): Script {
    if shared then Flattened(script) else script
  }

  /** New lists with the given contents. */
  method NewLists(script: Script) returns (lists: seq<PromptList>)
    ensures fresh(lists) && Contents(lists) == script
  {
    lists := [];
    for k := 0 to |script|
      invariant |lists| == k && fresh(lists) && forall i | 0 <= i < k :: lists[i][..] == script[i]
    {
      var list := NewList(script[k]);
      lists := lists + [list];
    }
  }

  method NewList(prompts: seq<Prompt>) returns (list: PromptList)
    ensures fresh(list) && list[..] == prompts
  {
    list := new Prompt[|prompts|](i requires 0 <= i < |prompts| => prompts[i]);
  }

  /**
   One warm-up request on the first prompt of the first conversation, then one queue entry
   per conversation.

   The warm-up works on a copy of one prompt: it never re-queues its conversation, and no
   prompt list of the benchmark has changed when the measured run starts.  Filling the queue
   never finds it full and leaves exactly the initial state of the machine, each entry on
   the list of its own conversation; the number of turns to get is that of the conversations
   queued.  It fails exactly when there is no first prompt or the warm-up request fails.
   */
  method SetUp(lists: seq<PromptList>, shared: bool, reply: Reply)
    returns (ok: bool, queue: BoundedQueue, total: nat, used: seq<PromptList>)
    ensures forall i | 0 <= i < |lists| :: lists[i][..] == old(lists[i][..])
    ensures Contents(used) == Requests(Contents(lists), shared) && (!shared ==> used == lists)
    ensures ok <==> used != [] && used[0].Length > 0 && reply.Reply?
    ensures fresh(queue) && queue.maxsize == |used|
    ensures total == TurnCount(Contents(lists)) == TurnCount(Contents(used))
    ensures if ok then Filled(queue.items, used) else queue.items == []
  {
    total := TurnCount(Contents(lists));
    used := ChooseLists(lists, shared);
    ok, queue := Launch(used, reply);
  }

  /** Shared prefixes are flattened into new lists of one prompt each. */
  method ChooseLists(lists: seq<PromptList>, shared: bool) returns (used: seq<PromptList>)
    ensures Contents(used) == Requests(Contents(lists), shared) && (!shared ==> used == lists)
    ensures TurnCount(Contents(used)) == TurnCount(Contents(lists))
  {
    FlattenKeepsTurns(Contents(lists));
    used := lists;
    if shared {
      used := NewLists(Flattened(Contents(lists)));
    }
  }

  method Launch(lists: seq<PromptList>, reply: Reply) returns (ok: bool, queue: BoundedQueue)
    ensures ok <==> lists != [] && lists[0].Length > 0 && reply.Reply?
    ensures fresh(queue) && queue.maxsize == |lists|
    ensures if ok then Filled(queue.items, lists) else queue.items == []
  {
    queue := new BoundedQueue(|lists|);
    ok := false;
    if lists != [] && lists[0].Length > 0 {
      ok := WarmUp(lists[0], queue, reply);
      if ok {
        Fill(queue, lists);
      }
    }
  }

  method WarmUp(list: PromptList, queue: BoundedQueue, reply: Reply) returns (ok: bool)
    requires list.Length > 0 && queue.items == []
    modifies queue
    ensures ok == reply.Reply? && queue.items == []
  {
    var copy := NewList([list[0]]);
    assert copy.Length == |copy[..]| == 1;
    var test := new RequestInput(copy);
    var _ := test.Open();
    var _ := test.Close(reply, queue);
    ok := reply.Reply?;
  }

  /** One distinct input per list, each in the state of the machine's initial slot. */
  ghost predicate Filled(items: seq<RequestInput>, lists: seq<PromptList>)
    reads items, lists, set i | 0 <= i < |items| :: items[i].prompts
  {
    && |items| == |lists|
    && (forall i, j | 0 <= i < j < |items| :: items[i] != items[j])
    && forall i | 0 <= i < |items| ::
         items[i].prompts == lists[i] && items[i].State() == Initial(Contents(lists)).slots[i].conv
  }

  method Fill(queue: BoundedQueue, lists: seq<PromptList>)
    requires queue.items == [] && queue.maxsize == |lists|
    modifies queue
    ensures Filled(queue.items, lists) && fresh(queue.items)
  {
    for k := 0 to |lists|
      invariant fresh(queue.items) && |queue.items| == k
      invariant forall i, j | 0 <= i < j < k :: queue.items[i] != queue.items[j]
      invariant forall i | 0 <= i < k ::
        queue.items[i].prompts == lists[i] && queue.items[i].State() == Started(lists[i][..])
    {
      var request := new RequestInput(lists[k]);
      var done := queue.PutNowait(request);
      assert done;
    }
  }
}
